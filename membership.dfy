/** The group-membership protocol of the admin panel, on the level of the
    document store: the three multi-document batches (create a group, add a
    member, remove a member), the single-document repair of a stale group
    reference, and the invariants these writes preserve.

    Store semantics the application relies on without showing them, stated
    here as the model's assumptions:
    - `arrayUnion(x)` appends `x` only when it is absent (ArrayUnion);
    - `arrayRemove(x)` removes every occurrence of `x` (ArrayRemove);
    - a batch applies every write or none, and an `update` of a document
      that does not exist fails the whole batch (ApplyAll, Commit);
    - `set` creates or overwrites the document it names. */
module Membership {
  import opened Js
  import opened Types

  /** The two collections the protocol touches: `users` and `groups`,
      each keyed by document id. */
  datatype Db = Db(users: map<string, UserProfile>, groups: map<string, Group>)

  predicate NoDuplicates(s: seq<string>) {
    forall i, j :: 0 <= i < j < |s| ==> s[i] != s[j]
  }

  /** Firestore's `arrayUnion(x)` applied to an array field. */
  function ArrayUnion(ids: seq<string>, x: string): (r: seq<string>)
    ensures forall y :: y in r <==> y in ids || y == x
    ensures |ids| <= |r| && r[..|ids|] == ids
    ensures x in ids ==> r == ids
    ensures NoDuplicates(ids) ==> NoDuplicates(r)
  {
    if x in ids then ids else ids + [x]
  }

  /** Firestore's `arrayRemove(x)` applied to an array field. */
  function ArrayRemove(ids: seq<string>, x: string): (r: seq<string>)
    ensures forall y :: y in r <==> y in ids && y != x
    ensures x !in r
    ensures x !in ids ==> r == ids
    ensures NoDuplicates(ids) ==> NoDuplicates(r)
    ensures NoDuplicates(ids) && x in ids ==> |r| == |ids| - 1
  {
    if ids == [] then []
    else if ids[0] == x then ArrayRemove(ids[1..], x)
    else
      var rest := ArrayRemove(ids[1..], x);
      var r := [ids[0]] + rest;
      assert NoDuplicates(ids) ==> NoDuplicates(r) by {
        if NoDuplicates(ids) {
          assert ids[0] !in ids[1..];
          assert NoDuplicates(ids[1..]) by {
            forall i, j | 0 <= i < j < |ids[1..]| ensures ids[1..][i] != ids[1..][j] {
              assert ids[1..][i] == ids[i + 1] && ids[1..][j] == ids[j + 1];
            }
          }
          assert ids[0] !in rest;
        }
      }
      r
  }

  /** One write of a batch. */
  datatype Write =
    | SetGroup(group: Group)
      /** `update(users/uid, {groupId, role?})`; role None leaves the field as it is. */
    | UpdateProfile(uid: string, groupId: Option<string>, role: Option<UserRole>)
      /** `update(groups/gid, {memberIds: arrayUnion(uid)})` */
    | UnionMember(gid: string, uid: string)
      /** `update(groups/gid, {memberIds: arrayRemove(uid), adminIds: arrayRemove(uid)})` */
    | RemoveFromGroup(gid: string, uid: string)

  /** The effect of one write; None when it updates a missing document. */
  function Apply(db: Db, w: Write): (r: Option<Db>)
    ensures r.None? <==> ((w.UpdateProfile? && w.uid !in db.users)
                          || ((w.UnionMember? || w.RemoveFromGroup?) && w.gid !in db.groups))
  {
    match w
    case SetGroup(g) =>
      Some(db.(groups := db.groups[g.id := g]))
    case UpdateProfile(uid, groupId, role) =>
      if uid !in db.users then None
      else
        var p := db.users[uid];
        var newRole := if role.Some? then role.value else p.role;
        Some(db.(users := db.users[uid := p.(groupId := groupId, role := newRole)]))
    case UnionMember(gid, uid) =>
      if gid !in db.groups then None
      else
        var g := db.groups[gid];
        Some(db.(groups := db.groups[gid := g.(memberIds := ArrayUnion(g.memberIds, uid))]))
    case RemoveFromGroup(gid, uid) =>
      if gid !in db.groups then None
      else
        var g := db.groups[gid];
        Some(db.(groups := db.groups[gid := g.(memberIds := ArrayRemove(g.memberIds, uid),
                                               adminIds := ArrayRemove(g.adminIds, uid))]))
  }

  /** All writes of a batch in order, or None when any of them fails. */
  function ApplyAll(db: Db, batch: seq<Write>): Option<Db>
    decreases |batch|
  {
    if batch == [] then Some(db)
    else
      match Apply(db, batch[0])
      case None => None
      case Some(next) => ApplyAll(next, batch[1..])
  }

  /** `batch.commit()`: the new store, or None when the commit is rejected
      (`ok` is the store's answer to an otherwise valid batch) and nothing
      was written. */
  function Commit(db: Db, batch: seq<Write>, ok: bool): Option<Db> {
    if ok then ApplyAll(db, batch) else None
  }

  /** The group document `handleCreateGroup` builds. */
  function NewGroup(id: string, name: string, creator: string, now: int): (g: Group)
    ensures g.id == id && g.name == Trim(name) && g.createdAt == now
    ensures g.adminIds == [creator] && g.memberIds == [creator]
  {
    Group(id, Trim(name), [creator], [creator], now)
  }

  function CreateGroupBatch(g: Group, creator: string): seq<Write> {
    [SetGroup(g), UpdateProfile(creator, Some(g.id), Some(Admin))]
  }

  function AddMemberBatch(gid: string, target: string): seq<Write> {
    [UpdateProfile(target, Some(gid), Some(Member)), UnionMember(gid, target)]
  }

  function RemoveMemberBatch(gid: string, target: string): seq<Write> {
    [UpdateProfile(target, None, Some(Member)), RemoveFromGroup(gid, target)]
  }

  /** The single `updateDoc(users/uid, {groupId: null})` of the stale-group repair. */
  function StaleRepairBatch(uid: string): seq<Write> {
    [UpdateProfile(uid, None, None)]
  }

  // ---------------------------------------------------------------------
  // Invariants

  /** Each group document: keyed by its own non-empty id, no duplicate ids in
      either list, at least one admin, every admin a member. */
  ghost predicate GroupWellFormed(gid: string, g: Group) {
    && gid != ""
    && g.id == gid
    && NoDuplicates(g.memberIds)
    && NoDuplicates(g.adminIds)
    && g.adminIds != []
    && forall u :: u in g.adminIds ==> u in g.memberIds
  }

  /** `u` is listed in group `gid`'s memberIds. */
  ghost predicate Listed(db: Db, gid: string, u: string) {
    gid in db.groups && u in db.groups[gid].memberIds
  }

  /** `u`'s profile points at group `gid`. */
  ghost predicate PointsAt(db: Db, u: string, gid: string) {
    u in db.users && db.users[u].groupId == Some(gid)
  }

  ghost predicate GroupsWellFormed(db: Db) {
    forall gid :: gid in db.groups ==> GroupWellFormed(gid, db.groups[gid])
  }

  ghost predicate MembersHaveProfiles(db: Db) {
    forall gid, u :: Listed(db, gid, u) ==> u in db.users
  }

  ghost predicate PointersMatchLists(db: Db) {
    forall gid, u :: gid in db.groups && u in db.users ==> (PointsAt(db, u, gid) <==> Listed(db, gid, u))
  }

  ghost predicate RolesMatchAdmins(db: Db) {
    forall gid, u :: gid in db.groups && PointsAt(db, u, gid) ==>
      (db.users[u].role == Admin <==> u in db.groups[gid].adminIds)
  }

  /** Every profile document is stored under its own `uid` field, so a
      lookup by document id and a query on the `uid` field agree. */
  ghost predicate ProfilesKeyedByUid(db: Db) {
    forall k :: k in db.users ==> db.users[k].uid == k
  }

  /** The cross-document invariants of the membership protocol:
      - every profile is stored under its own uid;
      - every group is well formed;
      - every listed member has a profile;
      - a profile points at an existing group exactly when that group lists it;
      - within its group, a profile's role is admin exactly when the group
        lists it among its admins. */
  ghost predicate Consistent(db: Db) {
    && ProfilesKeyedByUid(db)
    && GroupsWellFormed(db) && MembersHaveProfiles(db) && PointersMatchLists(db) && RolesMatchAdmins(db)
  }

  /** A profile without a truthy groupId is listed in no group. */
  lemma UngroupedIsUnlisted(db: Db, u: string, gid: string)
    requires Consistent(db) && u in db.users && !InGroup(db.users[u])
    ensures !Listed(db, gid, u)
  {
    if gid in db.groups {
      assert GroupWellFormed(gid, db.groups[gid]);
      assert !PointsAt(db, u, gid);
    }
  }

  /** A batch of two writes applies the second to the result of the first. */
  lemma ApplyTwo(db: Db, w1: Write, w2: Write)
    ensures ApplyAll(db, [w1, w2]) == if Apply(db, w1).None? then None else Apply(Apply(db, w1).value, w2)
  {
    var b := [w1, w2];
    assert b[1..] == [w2];
    if Apply(db, w1).Some? {
      var d := Apply(db, w1).value;
      assert [w2][1..] == [];
      if Apply(d, w2).Some? {
        assert ApplyAll(Apply(d, w2).value, []) == Apply(d, w2);
      }
    }
  }

  /** A batch of one write is that write. */
  lemma ApplyOne(db: Db, w: Write)
    ensures ApplyAll(db, [w]) == Apply(db, w)
  {
    assert [w][1..] == [];
  }

  // ---------------------------------------------------------------------
  // The states the three batches produce

  function AfterCreate(db: Db, g: Group, creator: string): Db
    requires creator in db.users
  {
    Db(db.users[creator := db.users[creator].(groupId := Some(g.id), role := Admin)],
       db.groups[g.id := g])
  }

  function AfterAdd(db: Db, gid: string, target: string): Db
    requires gid in db.groups && target in db.users
  {
    var g := db.groups[gid];
    Db(db.users[target := db.users[target].(groupId := Some(gid), role := Member)],
       db.groups[gid := g.(memberIds := ArrayUnion(g.memberIds, target))])
  }

  function AfterRemove(db: Db, gid: string, target: string): Db
    requires gid in db.groups && target in db.users
  {
    var g := db.groups[gid];
    Db(db.users[target := db.users[target].(groupId := None, role := Member)],
       db.groups[gid := g.(memberIds := ArrayRemove(g.memberIds, target),
                           adminIds := ArrayRemove(g.adminIds, target))])
  }

  /** The create-group batch fails only when the creator has no profile
      document (the new group is `set`, never `update`d); otherwise it
      yields AfterCreate. */
  lemma CreateGroupBatchEffect(db: Db, g: Group, creator: string)
    ensures var r := ApplyAll(db, CreateGroupBatch(g, creator));
      && (r.Some? <==> creator in db.users)
      && (r.Some? ==> r.value == AfterCreate(db, g, creator))
  {
    ApplyTwo(db, SetGroup(g), UpdateProfile(creator, Some(g.id), Some(Admin)));
  }

  /** The add-member batch fails exactly when the target profile or the
      group document is missing; otherwise it yields AfterAdd. */
  lemma AddMemberBatchEffect(db: Db, gid: string, target: string)
    ensures var r := ApplyAll(db, AddMemberBatch(gid, target));
      && (r.Some? <==> target in db.users && gid in db.groups)
      && (r.Some? ==> r.value == AfterAdd(db, gid, target))
  {
    ApplyTwo(db, UpdateProfile(target, Some(gid), Some(Member)), UnionMember(gid, target));
  }

  /** The remove-member batch fails exactly when the target profile or the
      group document is missing; otherwise it yields AfterRemove. */
  lemma RemoveMemberBatchEffect(db: Db, gid: string, target: string)
    ensures var r := ApplyAll(db, RemoveMemberBatch(gid, target));
      && (r.Some? <==> target in db.users && gid in db.groups)
      && (r.Some? ==> r.value == AfterRemove(db, gid, target))
  {
    ApplyTwo(db, UpdateProfile(target, None, Some(Member)), RemoveFromGroup(gid, target));
  }

  /** The stale-group repair fails exactly when the profile is missing;
      otherwise only that profile's groupId changes, to null. */
  lemma StaleRepairBatchEffect(db: Db, uid: string)
    ensures var r := ApplyAll(db, StaleRepairBatch(uid));
      && (r.Some? <==> uid in db.users)
      && (r.Some? ==> r.value == db.(users := db.users[uid := db.users[uid].(groupId := None)]))
  {
    ApplyOne(db, UpdateProfile(uid, None, None));
  }

  // ---------------------------------------------------------------------
  // Preservation of the invariants

  /** An id the store's generator may hand out: non-empty, no group document
      under it, and no profile referring to it. */
  ghost predicate FreshGroupId(db: Db, id: string) {
    && id != ""
    && id !in db.groups
    && forall u :: u in db.users ==> db.users[u].groupId != Some(id)
  }

  /** Creating a group for a creator in no group, under a fresh id, with the
      creator as sole admin and sole member, keeps the store consistent. */
  lemma CreateGroupPreserves(db: Db, g: Group, creator: string)
    requires Consistent(db)
    requires creator in db.users && !InGroup(db.users[creator])
    requires FreshGroupId(db, g.id)
    requires g.adminIds == [creator] && g.memberIds == [creator]
    ensures Consistent(AfterCreate(db, g, creator))
  {
    var id := g.id;
    var d := AfterCreate(db, g, creator);
    assert GroupWellFormed(id, g);
    assert GroupsWellFormed(d);
    assert MembersHaveProfiles(d) by {
      forall h, u | Listed(d, h, u) ensures u in d.users {
        if h != id { assert Listed(db, h, u); }
      }
    }
    assert PointersMatchLists(d) by {
      forall h, u | h in d.groups && u in d.users
        ensures PointsAt(d, u, h) <==> Listed(d, h, u)
      {
        if u == creator {
          if h != id { UngroupedIsUnlisted(db, creator, h); }
        } else if h != id {
          assert PointsAt(d, u, h) <==> PointsAt(db, u, h);
          assert Listed(d, h, u) <==> Listed(db, h, u);
        } else {
          assert !PointsAt(db, u, id);
        }
      }
    }
    assert RolesMatchAdmins(d) by {
      forall h, u | h in d.groups && PointsAt(d, u, h)
        ensures d.users[u].role == Admin <==> u in d.groups[h].adminIds
      {
        if u != creator {
          assert h != id;
          assert PointsAt(db, u, h);
        }
      }
    }
  }

  /** Adding a target in no group to an existing group appends the target
      to memberIds exactly once and keeps the store consistent. */
  lemma AddMemberPreserves(db: Db, gid: string, target: string)
    requires Consistent(db)
    requires gid in db.groups
    requires target in db.users && !InGroup(db.users[target])
    ensures AfterAdd(db, gid, target).groups[gid].memberIds == db.groups[gid].memberIds + [target]
    ensures Consistent(AfterAdd(db, gid, target))
  {
    var g := db.groups[gid];
    UngroupedIsUnlisted(db, target, gid);
    var d := AfterAdd(db, gid, target);
    var g' := d.groups[gid];
    assert g'.memberIds == g.memberIds + [target];
    assert GroupWellFormed(gid, g);
    assert GroupWellFormed(gid, g');
    assert GroupsWellFormed(d);
    assert MembersHaveProfiles(d) by {
      forall h, u | Listed(d, h, u) ensures u in d.users {
        if u != target { assert Listed(db, h, u); }
      }
    }
    assert PointersMatchLists(d) by {
      forall h, u | h in d.groups && u in d.users
        ensures PointsAt(d, u, h) <==> Listed(d, h, u)
      {
        if u == target {
          if h != gid { UngroupedIsUnlisted(db, target, h); }
        } else {
          assert PointsAt(d, u, h) <==> PointsAt(db, u, h);
          assert Listed(d, h, u) <==> Listed(db, h, u);
        }
      }
    }
    assert RolesMatchAdmins(d) by {
      forall h, u | h in d.groups && PointsAt(d, u, h)
        ensures d.users[u].role == Admin <==> u in d.groups[h].adminIds
      {
        if u == target {
          assert target !in g.adminIds;
        } else {
          assert PointsAt(db, u, h);
        }
      }
    }
  }

  /** Removing a listed member who is not the group's only admin keeps the
      store consistent; in particular the group keeps at least one admin. */
  lemma RemoveMemberPreserves(db: Db, gid: string, target: string)
    requires Consistent(db)
    requires Listed(db, gid, target)
    requires !(target in db.groups[gid].adminIds && |db.groups[gid].adminIds| == 1)
    ensures target in db.users
    ensures AfterRemove(db, gid, target).groups[gid].adminIds != []
    ensures Consistent(AfterRemove(db, gid, target))
  {
    var g := db.groups[gid];
    assert GroupWellFormed(gid, g);
    var d := AfterRemove(db, gid, target);
    var g' := d.groups[gid];
    assert g'.adminIds != [] by {
      if target in g.adminIds {
        assert |g'.adminIds| == |g.adminIds| - 1;
      } else {
        assert g'.adminIds == g.adminIds;
      }
    }
    assert GroupWellFormed(gid, g');
    assert GroupsWellFormed(d);
    assert PointsAt(db, target, gid);
    assert MembersHaveProfiles(d) by {
      forall h, u | Listed(d, h, u) ensures u in d.users {
        assert Listed(db, h, u);
      }
    }
    assert PointersMatchLists(d) by {
      forall h, u | h in d.groups && u in d.users
        ensures PointsAt(d, u, h) <==> Listed(d, h, u)
      {
        if u == target {
          if h != gid { assert !PointsAt(db, target, h); }
        } else {
          assert PointsAt(d, u, h) <==> PointsAt(db, u, h);
          assert Listed(d, h, u) <==> Listed(db, h, u);
        }
      }
    }
    assert RolesMatchAdmins(d) by {
      forall h, u | h in d.groups && PointsAt(d, u, h)
        ensures d.users[u].role == Admin <==> u in d.groups[h].adminIds
      {
        assert u != target;
        assert PointsAt(db, u, h);
      }
    }
  }

  /** Clearing the groupId of a profile that points at no existing group
      keeps the store consistent. */
  lemma StaleRepairPreserves(db: Db, uid: string)
    requires Consistent(db)
    requires uid in db.users
    requires db.users[uid].groupId.Some? ==> db.users[uid].groupId.value !in db.groups
    ensures Consistent(db.(users := db.users[uid := db.users[uid].(groupId := None)]))
  {
    var d := db.(users := db.users[uid := db.users[uid].(groupId := None)]);
    assert MembersHaveProfiles(d) by {
      forall h, u | Listed(d, h, u) ensures u in d.users {
        assert Listed(db, h, u);
      }
    }
    assert PointersMatchLists(d) by {
      forall h, u | h in d.groups && u in d.users
        ensures PointsAt(d, u, h) <==> Listed(d, h, u)
      {
        if u == uid {
          assert !PointsAt(db, uid, h);
        } else {
          assert PointsAt(d, u, h) <==> PointsAt(db, u, h);
        }
      }
    }
    assert RolesMatchAdmins(d) by {
      forall h, u | h in d.groups && PointsAt(d, u, h)
        ensures d.users[u].role == Admin <==> u in d.groups[h].adminIds
      {
        assert u != uid;
        assert PointsAt(db, u, h);
      }
    }
  }

  /** A second AddMember of the same user is refused: after the first batch
      the target's profile has a truthy groupId. */
  lemma AddMemberTwiceRefused(db: Db, gid: string, target: string)
    requires Consistent(db) && gid in db.groups
    requires target in db.users
    ensures InGroup(AfterAdd(db, gid, target).users[target])
  {
    assert GroupWellFormed(gid, db.groups[gid]);
  }

  // ---------------------------------------------------------------------
  // The handlers' store steps: precondition reads, then one batch

  /** What a membership handler ended with: the error kinds it raises (shown
      as a toast) or success. */
  datatype Outcome =
    | Skipped
    | AlreadyInGroup(groupId: string)
    | UserNotFound
    | GroupNotFound
    | NotAMember
    | CannotRemoveSelf
    | LastAdminCannotBeRemoved
    | CommitFailed
    | Done

  datatype Step = Step(outcome: Outcome, db: Db)

  /** The try-block of `handleCreateGroup`: refuse when the admin's context
      profile already names a group, else commit the create-group batch,
      which succeeds when the store accepts it and the creator's profile
      exists (CreateGroupStepCommits ties this to the batch). */
  function CreateGroupStep(db: Db, contextGroupId: Option<string>, g: Group, creator: string, ok: bool): (r: Step)
    ensures r.outcome.AlreadyInGroup? <==> Truthy(contextGroupId)
    ensures r.outcome.AlreadyInGroup? ==> Some(r.outcome.groupId) == contextGroupId
    ensures r.outcome == Done <==> !Truthy(contextGroupId) && ok && creator in db.users
    ensures r.outcome.AlreadyInGroup? || r.outcome in {Done, CommitFailed}
    ensures r.outcome != Done ==> r.db == db
  {
    if Truthy(contextGroupId) then Step(AlreadyInGroup(contextGroupId.value), db)
    else if ok && creator in db.users then Step(Done, AfterCreate(db, g, creator))
    else Step(CommitFailed, db)
  }

  /** Past the refusal, the create-group step is exactly the commit of the
      create-group batch: Done with the committed store, or CommitFailed
      with nothing written. */
  lemma CreateGroupStepCommits(db: Db, contextGroupId: Option<string>, g: Group, creator: string, ok: bool)
    requires !Truthy(contextGroupId)
    ensures var r := CreateGroupStep(db, contextGroupId, g, creator, ok);
      && (r.outcome == Done <==> Commit(db, CreateGroupBatch(g, creator), ok).Some?)
      && (r.outcome == Done ==> Commit(db, CreateGroupBatch(g, creator), ok) == Some(r.db))
  {
    CreateGroupBatchEffect(db, g, creator);
  }

  /** The try-block of `handleAddMember`: read the target's profile, refuse
      a missing profile or one that already has a group, else commit the
      add-member batch (AddMemberStepCommits ties this to the batch). */
  function AddMemberStep(db: Db, gid: string, target: string, ok: bool): (r: Step)
    ensures r.outcome == UserNotFound <==> target !in db.users
    ensures r.outcome.AlreadyInGroup? <==> target in db.users && InGroup(db.users[target])
    ensures r.outcome.AlreadyInGroup? ==> Some(r.outcome.groupId) == db.users[target].groupId
    ensures r.outcome == Done <==> target in db.users && !InGroup(db.users[target]) && ok && gid in db.groups
    ensures r.outcome.AlreadyInGroup? || r.outcome in {UserNotFound, Done, CommitFailed}
    ensures r.outcome != Done ==> r.db == db
  {
    if target !in db.users then Step(UserNotFound, db)
    else if Truthy(db.users[target].groupId) then Step(AlreadyInGroup(db.users[target].groupId.value), db)
    else if ok && gid in db.groups then Step(Done, AfterAdd(db, gid, target))
    else Step(CommitFailed, db)
  }

  /** Past the refusals, the add-member step is exactly the commit of the
      add-member batch. */
  lemma AddMemberStepCommits(db: Db, gid: string, target: string, ok: bool)
    requires target in db.users && !InGroup(db.users[target])
    ensures var r := AddMemberStep(db, gid, target, ok);
      && (r.outcome == Done <==> Commit(db, AddMemberBatch(gid, target), ok).Some?)
      && (r.outcome == Done ==> Commit(db, AddMemberBatch(gid, target), ok) == Some(r.db))
  {
    AddMemberBatchEffect(db, gid, target);
  }

  /** The try-block of `handleRemoveMember`: re-read the group, refuse a
      missing group, a non-member and the only admin, else commit the
      remove-member batch (RemoveMemberStepCommits ties this to the batch). */
  function RemoveMemberStep(db: Db, gid: string, target: string, ok: bool): (r: Step)
    ensures r.outcome == GroupNotFound <==> gid !in db.groups
    ensures r.outcome == NotAMember <==> gid in db.groups && !Listed(db, gid, target)
    ensures r.outcome == LastAdminCannotBeRemoved <==>
      Listed(db, gid, target) && target in db.groups[gid].adminIds && |db.groups[gid].adminIds| == 1
    ensures r.outcome == Done <==>
      Listed(db, gid, target) && !(target in db.groups[gid].adminIds && |db.groups[gid].adminIds| == 1)
      && ok && target in db.users
    ensures r.outcome in {GroupNotFound, NotAMember, LastAdminCannotBeRemoved, Done, CommitFailed}
    ensures r.outcome != Done ==> r.db == db
  {
    if gid !in db.groups then Step(GroupNotFound, db)
    else if target !in db.groups[gid].memberIds then Step(NotAMember, db)
    else if target in db.groups[gid].adminIds && |db.groups[gid].adminIds| == 1 then Step(LastAdminCannotBeRemoved, db)
    else if ok && target in db.users then Step(Done, AfterRemove(db, gid, target))
    else Step(CommitFailed, db)
  }

  /** Past the refusals, the remove-member step is exactly the commit of
      the remove-member batch. */
  lemma RemoveMemberStepCommits(db: Db, gid: string, target: string, ok: bool)
    requires gid in db.groups && target in db.groups[gid].memberIds
    requires !(target in db.groups[gid].adminIds && |db.groups[gid].adminIds| == 1)
    ensures var r := RemoveMemberStep(db, gid, target, ok);
      && (r.outcome == Done <==> Commit(db, RemoveMemberBatch(gid, target), ok).Some?)
      && (r.outcome == Done ==> Commit(db, RemoveMemberBatch(gid, target), ok) == Some(r.db))
  {
    RemoveMemberBatchEffect(db, gid, target);
  }

  /** Every outcome of the create-group step keeps a consistent store
      consistent, provided the context profile agrees with the stored one
      and the generated id is fresh. */
  lemma CreateGroupStepPreserves(db: Db, contextGroupId: Option<string>, id: string, name: string,
                                 creator: string, now: int, ok: bool)
    requires Consistent(db) && FreshGroupId(db, id)
    requires creator in db.users ==> db.users[creator].groupId == contextGroupId
    ensures Consistent(CreateGroupStep(db, contextGroupId, NewGroup(id, name, creator, now), creator, ok).db)
  {
    var g := NewGroup(id, name, creator, now);
    if CreateGroupStep(db, contextGroupId, g, creator, ok).outcome == Done {
      CreateGroupPreserves(db, g, creator);
    }
  }

  // ---------------------------------------------------------------------
  // The create-group refusal reads the context profile, not the store

  /** The refusal in `handleCreateGroup` tests the profile the auth context
      read at sign-in, and creating a group does not refresh that profile.
      Opening the admin page again in the same session therefore passes the
      test a second time: the creator ends up listed in the first group
      while pointing at the second, and the store is no longer consistent. */
  lemma StaleContextSecondGroup()
    ensures
      var admin := UserProfile("A", Some("a@example.com"), "Ann", "", None, None, Admin, 0);
      var db0 := Db(map["A" := admin], map[]);
      var first := CreateGroupStep(db0, admin.groupId, NewGroup("g1", "Home", "A", 1), "A", true);
      var second := CreateGroupStep(first.db, admin.groupId, NewGroup("g2", "Home", "A", 2), "A", true);
      && Consistent(db0)
      && first.outcome == Done && Consistent(first.db) && FreshGroupId(first.db, "g2")
      && second.outcome == Done
      && Listed(second.db, "g1", "A") && !PointsAt(second.db, "A", "g1")
      && !Consistent(second.db)
  {
    var admin := UserProfile("A", Some("a@example.com"), "Ann", "", None, None, Admin, 0);
    var db0 := Db(map["A" := admin], map[]);
    var g1 := NewGroup("g1", "Home", "A", 1);
    assert Consistent(db0);
    CreateGroupPreserves(db0, g1, "A");
    var db1 := CreateGroupStep(db0, None, g1, "A", true).db;
    assert db1.users == map["A" := admin.(groupId := Some("g1"), role := Admin)];
    var db2 := CreateGroupStep(db1, None, NewGroup("g2", "Home", "A", 2), "A", true).db;
    assert "g1" in db2.groups && "A" in db2.users;
    assert Listed(db2, "g1", "A") && !PointsAt(db2, "A", "g1");
    assert !PointersMatchLists(db2);
  }

  /** The create-group step with the refusal the failsafe evidently means:
      read the creator's stored profile, as `handleAddMember` reads the
      target's, and refuse when it already names a group; else commit the
      create-group batch. */
  function CreateGroupCheckedStep(db: Db, g: Group, creator: string, ok: bool): (r: Step)
    ensures r.outcome.AlreadyInGroup? <==> creator in db.users && InGroup(db.users[creator])
    ensures r.outcome.AlreadyInGroup? ==> Some(r.outcome.groupId) == db.users[creator].groupId
    ensures r.outcome == Done <==> creator in db.users && !InGroup(db.users[creator]) && ok
    ensures r.outcome.AlreadyInGroup? || r.outcome in {Done, CommitFailed}
    ensures r.outcome != Done ==> r.db == db
  {
    if creator in db.users && Truthy(db.users[creator].groupId) then
      Step(AlreadyInGroup(db.users[creator].groupId.value), db)
    else if ok && creator in db.users then Step(Done, AfterCreate(db, g, creator))
    else Step(CommitFailed, db)
  }

  /** Past the refusal, the checked step is exactly the commit of the
      create-group batch. */
  lemma CreateGroupCheckedStepCommits(db: Db, g: Group, creator: string, ok: bool)
    requires !(creator in db.users && InGroup(db.users[creator]))
    ensures var r := CreateGroupCheckedStep(db, g, creator, ok);
      && (r.outcome == Done <==> Commit(db, CreateGroupBatch(g, creator), ok).Some?)
      && (r.outcome == Done ==> Commit(db, CreateGroupBatch(g, creator), ok) == Some(r.db))
  {
    CreateGroupBatchEffect(db, g, creator);
  }

  /** Every outcome of the checked step keeps a consistent store consistent
      under a fresh id, whatever the context profile says. */
  lemma CreateGroupCheckedStepPreserves(db: Db, id: string, name: string, creator: string, now: int, ok: bool)
    requires Consistent(db) && FreshGroupId(db, id)
    ensures Consistent(CreateGroupCheckedStep(db, NewGroup(id, name, creator, now), creator, ok).db)
  {
    var g := NewGroup(id, name, creator, now);
    if CreateGroupCheckedStep(db, g, creator, ok).outcome == Done {
      CreateGroupPreserves(db, g, creator);
    }
  }

  /** While the context profile agrees with the stored one, the checked
      step does exactly what the step as written does. */
  lemma CheckedStepAgreesWhenCurrent(db: Db, contextGroupId: Option<string>, g: Group, creator: string, ok: bool)
    requires creator in db.users && db.users[creator].groupId == contextGroupId
    ensures CreateGroupCheckedStep(db, g, creator, ok) == CreateGroupStep(db, contextGroupId, g, creator, ok)
  {
  }

  /** After a committed creation the checked step refuses a second one,
      naming the first group. */
  lemma CheckedStepRefusesSecondGroup(db: Db, g1: Group, g2: Group, creator: string, ok1: bool, ok2: bool)
    requires g1.id != ""
    requires CreateGroupCheckedStep(db, g1, creator, ok1).outcome == Done
    ensures CreateGroupCheckedStep(CreateGroupCheckedStep(db, g1, creator, ok1).db, g2, creator, ok2).outcome
            == AlreadyInGroup(g1.id)
  {
  }

  /** Every outcome of the add-member step keeps a consistent store consistent. */
  lemma AddMemberStepPreserves(db: Db, gid: string, target: string, ok: bool)
    requires Consistent(db)
    ensures Consistent(AddMemberStep(db, gid, target, ok).db)
  {
    if AddMemberStep(db, gid, target, ok).outcome == Done {
      AddMemberPreserves(db, gid, target);
    }
  }

  /** Every outcome of the remove-member step keeps a consistent store
      consistent; in particular no group is left without an admin. */
  lemma RemoveMemberStepPreserves(db: Db, gid: string, target: string, ok: bool)
    requires Consistent(db)
    ensures Consistent(RemoveMemberStep(db, gid, target, ok).db)
  {
    if RemoveMemberStep(db, gid, target, ok).outcome == Done {
      RemoveMemberPreserves(db, gid, target);
    }
  }

  // ---------------------------------------------------------------------
  // Group ids that name a stored group

  /** Every groupId a profile holds names a stored group. `Consistent`
      does not demand this: the stale-group repair of `fetchGroupData`
      exists for a profile whose group document is missing. */
  ghost predicate NoDanglingGroupIds(db: Db) {
    forall u :: u in db.users && db.users[u].groupId.Some? ==> db.users[u].groupId.value in db.groups
  }

  /** The converse of UngroupedIsUnlisted: in a consistent store without
      dangling ids, a profile holding a groupId is listed by that group,
      so a profile's groupId is null exactly when no group lists it. */
  lemma GroupedIsListed(db: Db, u: string)
    requires Consistent(db) && NoDanglingGroupIds(db)
    requires u in db.users && db.users[u].groupId.Some?
    ensures Listed(db, db.users[u].groupId.value, u)
  {
    var gid := db.users[u].groupId.value;
    assert gid in db.groups && PointsAt(db, u, gid);
  }

  /** Every outcome of the checked create step keeps group ids resolved. */
  lemma CreateGroupCheckedStepResolves(db: Db, id: string, name: string, creator: string, now: int, ok: bool)
    requires NoDanglingGroupIds(db)
    ensures NoDanglingGroupIds(CreateGroupCheckedStep(db, NewGroup(id, name, creator, now), creator, ok).db)
  {
  }

  /** Every outcome of the add-member step keeps group ids resolved. */
  lemma AddMemberStepResolves(db: Db, gid: string, target: string, ok: bool)
    requires NoDanglingGroupIds(db)
    ensures NoDanglingGroupIds(AddMemberStep(db, gid, target, ok).db)
  {
  }

  /** Every outcome of the remove-member step keeps group ids resolved. */
  lemma RemoveMemberStepResolves(db: Db, gid: string, target: string, ok: bool)
    requires NoDanglingGroupIds(db)
    ensures NoDanglingGroupIds(RemoveMemberStep(db, gid, target, ok).db)
  {
  }

  /** The stale-group repair clears the admin's dangling id and leaves
      every other profile's groupId as it was. */
  lemma StaleRepairResolves(db: Db, uid: string)
    requires uid in db.users
    requires forall u :: u in db.users && u != uid && db.users[u].groupId.Some? ==> db.users[u].groupId.value in db.groups
    ensures NoDanglingGroupIds(db.(users := db.users[uid := db.users[uid].(groupId := None)]))
  {
  }
}
