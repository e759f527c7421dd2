/** The read side of the admin panel: the chunked fetch of a group's member
    profiles (the store's `in` query accepts at most 30 ids) and the query
    for users without a group. */
module MemberQueries {
  import opened Js
  import opened Types
  import opened Membership

  /** Firestore's limit on the ids of one `in` query. */
  const MaxInQuerySize: nat := 30

  /** The slices `ids.slice(i, i + n)` for i = start, start + n, ... while
      i < |ids|. */
  function ChunksFrom(ids: seq<string>, start: nat, n: nat): seq<seq<string>>
    requires n > 0
    decreases |ids| - start
  {
    if start >= |ids| then []
    else
      var end := if start + n <= |ids| then start + n else |ids|;
      [ids[start..end]] + ChunksFrom(ids, start + n, n)
  }

  function Chunks(ids: seq<string>, n: nat): seq<seq<string>>
    requires n > 0
  {
    ChunksFrom(ids, 0, n)
  }

  function Flatten(chunks: seq<seq<string>>): seq<string> {
    if chunks == [] then [] else chunks[0] + Flatten(chunks[1..])
  }

  /** One `query(users, where('uid', 'in', chunk))`: the profiles of the ids
      in the chunk that have one, in the chunk's order. */
  function QueryUidIn(users: map<string, UserProfile>, chunk: seq<string>): (r: seq<UserProfile>)
    ensures |r| <= |chunk|
    ensures forall p :: p in r ==> exists id :: id in chunk && id in users && users[id] == p
  {
    if chunk == [] then []
    else (if chunk[0] in users then [users[chunk[0]]] else []) + QueryUidIn(users, chunk[1..])
  }

  /** Profiles are stored under their own uid (ProfilesKeyedByUid, part of
      Consistent), so looking the chunk's ids up as document ids returns
      exactly the stored profiles whose `uid` field is in the chunk: the
      set the `where('uid', 'in', chunk)` query selects. */
  lemma {:induction false} QueryUidInIsFieldFilter(db: Db, chunk: seq<string>)
    requires ProfilesKeyedByUid(db)
    ensures forall p :: p in QueryUidIn(db.users, chunk) <==> p in db.users.Values && p.uid in chunk
  {
    if chunk != [] {
      QueryUidInIsFieldFilter(db, chunk[1..]);
      forall p | p in db.users.Values && p.uid in chunk
        ensures p in QueryUidIn(db.users, chunk)
      {
        var k :| k in db.users && db.users[k] == p;
        assert k == p.uid;
        if p.uid != chunk[0] {
          assert p.uid in chunk[1..];
        }
      }
    }
  }

  /** In a consistent store the member query of a group returns exactly
      the profiles that point at that group. */
  lemma GroupMembersAreItsProfiles(db: Db, gid: string)
    requires Consistent(db) && gid in db.groups
    ensures forall p :: p in QueryUidIn(db.users, db.groups[gid].memberIds) <==>
      p in db.users.Values && p.groupId == Some(gid)
  {
    QueryUidInIsFieldFilter(db, db.groups[gid].memberIds);
    forall p | p in db.users.Values
      ensures p.uid in db.groups[gid].memberIds <==> p.groupId == Some(gid)
    {
      var k :| k in db.users && db.users[k] == p;
      assert PointsAt(db, k, gid) <==> Listed(db, gid, k);
    }
  }

  /** The results of the chunk queries, concatenated in chunk order. */
  function QueryChunks(users: map<string, UserProfile>, chunks: seq<seq<string>>): seq<UserProfile> {
    if chunks == [] then [] else QueryUidIn(users, chunks[0]) + QueryChunks(users, chunks[1..])
  }

  lemma {:induction false} ChunksFromFlatten(ids: seq<string>, start: nat, n: nat)
    requires n > 0 && start <= |ids|
    ensures Flatten(ChunksFrom(ids, start, n)) == ids[start..]
    decreases |ids| - start
  {
    if start < |ids| {
      var end := if start + n <= |ids| then start + n else |ids|;
      var rest := ChunksFrom(ids, start + n, n);
      assert ChunksFrom(ids, start, n)[1..] == rest;
      if start + n <= |ids| {
        ChunksFromFlatten(ids, start + n, n);
        assert ids[start..] == ids[start..end] + ids[start + n..];
      } else {
        assert rest == [];
      }
    }
  }

  lemma {:induction false} ChunksFromSizes(ids: seq<string>, start: nat, n: nat)
    requires n > 0
    ensures forall k :: 0 <= k < |ChunksFrom(ids, start, n)| ==>
      0 < |ChunksFrom(ids, start, n)[k]| <= n
    ensures forall k :: 0 <= k < |ChunksFrom(ids, start, n)| - 1 ==>
      |ChunksFrom(ids, start, n)[k]| == n
    decreases |ids| - start
  {
    var cs := ChunksFrom(ids, start, n);
    if start < |ids| {
      var rest := ChunksFrom(ids, start + n, n);
      ChunksFromSizes(ids, start + n, n);
      assert forall k :: 1 <= k < |cs| ==> cs[k] == rest[k - 1];
      if start + n > |ids| {
        assert rest == [];
      }
    }
  }

  lemma {:induction false} ChunksFromCount(ids: seq<string>, start: nat, n: nat)
    requires n > 0 && start <= |ids|
    ensures |ids| - start <= |ChunksFrom(ids, start, n)| * n < |ids| - start + n
    decreases |ids| - start
  {
    if start < |ids| {
      var k := |ChunksFrom(ids, start + n, n)|;
      if start + n <= |ids| {
        ChunksFromCount(ids, start + n, n);
        assert (k + 1) * n == k * n + n;
      } else {
        assert k == 0;
      }
    }
  }

  /** The member fetch splits `ids` into consecutive non-empty slices of at
      most n ids, all but the last exactly n long, whose concatenation is
      `ids`; there are ceil(|ids| / n) of them, none for an empty list. */
  lemma ChunksShape(ids: seq<string>, n: nat)
    requires n > 0
    ensures Flatten(Chunks(ids, n)) == ids
    ensures forall k :: 0 <= k < |Chunks(ids, n)| ==> 0 < |Chunks(ids, n)[k]| <= n
    ensures forall k :: 0 <= k < |Chunks(ids, n)| - 1 ==> |Chunks(ids, n)[k]| == n
    ensures |ids| <= |Chunks(ids, n)| * n < |ids| + n
    ensures ids == [] <==> Chunks(ids, n) == []
  {
    ChunksFromFlatten(ids, 0, n);
    ChunksFromSizes(ids, 0, n);
    ChunksFromCount(ids, 0, n);
  }

  lemma {:induction false} QueryUidInAppend(users: map<string, UserProfile>, a: seq<string>, b: seq<string>)
    ensures QueryUidIn(users, a + b) == QueryUidIn(users, a) + QueryUidIn(users, b)
  {
    if a != [] {
      assert (a + b)[1..] == a[1..] + b;
      QueryUidInAppend(users, a[1..], b);
    } else {
      assert a + b == b;
    }
  }

  /** Querying chunk by chunk and concatenating gives what one query over
      the whole id list would give. */
  lemma {:induction false} QueryChunksFlatten(users: map<string, UserProfile>, chunks: seq<seq<string>>)
    ensures QueryChunks(users, chunks) == QueryUidIn(users, Flatten(chunks))
  {
    if chunks != [] {
      QueryChunksFlatten(users, chunks[1..]);
      QueryUidInAppend(users, chunks[0], Flatten(chunks[1..]));
    }
  }

  lemma {:induction false} QueryChunksAppend(users: map<string, UserProfile>, a: seq<seq<string>>, b: seq<seq<string>>)
    ensures QueryChunks(users, a + b) == QueryChunks(users, a) + QueryChunks(users, b)
  {
    if a != [] {
      assert (a + b)[1..] == a[1..] + b;
      QueryChunksAppend(users, a[1..], b);
    } else {
      assert a + b == b;
    }
  }

  /** The chunks from `i` on are one more than the chunks from `i + n` on. */
  lemma ChunksFromStep(ids: seq<string>, i: nat, n: nat)
    requires n > 0 && i < |ids|
    ensures |ChunksFrom(ids, i, n)| == 1 + |ChunksFrom(ids, i + n, n)|
  {
  }

  /** The loop of `fetchGroupData`: one query per chunk of at most 30 ids,
      results concatenated in chunk order. The profiles are those of the
      whole id list, and the number of queries is ceil(|memberIds| / 30). */
  method FetchMemberProfiles(users: map<string, UserProfile>, memberIds: seq<string>)
    returns (memberProfiles: seq<UserProfile>, queries: nat)
    ensures memberProfiles == QueryChunks(users, Chunks(memberIds, MaxInQuerySize))
    ensures memberProfiles == QueryUidIn(users, memberIds)
    ensures queries == |Chunks(memberIds, MaxInQuerySize)|
    ensures |memberIds| <= queries * MaxInQuerySize < |memberIds| + MaxInQuerySize
  {
    memberProfiles, queries := [], 0;
    var i: nat := 0;
    while i < |memberIds|
      invariant i <= |memberIds| + MaxInQuerySize
      invariant memberProfiles == QueryUidIn(users, memberIds[..if i <= |memberIds| then i else |memberIds|])
      invariant queries + |ChunksFrom(memberIds, i, MaxInQuerySize)| == |Chunks(memberIds, MaxInQuerySize)|
      decreases |memberIds| - i
    {
      var end := if i + MaxInQuerySize <= |memberIds| then i + MaxInQuerySize else |memberIds|;
      var chunkIds := memberIds[i..end];
      if |chunkIds| > 0 {
        var chunkProfiles := QueryUidIn(users, chunkIds);
        ChunksFromStep(memberIds, i, MaxInQuerySize);
        QueryUidInAppend(users, memberIds[..i], chunkIds);
        assert memberIds[..i] + chunkIds == memberIds[..end];
        memberProfiles := memberProfiles + chunkProfiles;
        queries := queries + 1;
      }
      i := i + MaxInQuerySize;
    }
    assert memberIds[..|memberIds|] == memberIds;
    assert ChunksFrom(memberIds, i, MaxInQuerySize) == [];
    ChunksShape(memberIds, MaxInQuerySize);
    QueryChunksFlatten(users, Chunks(memberIds, MaxInQuerySize));
  }

  /** With the store consistent, the fetch returns one profile per member,
      the profile of that member. */
  lemma {:induction false} MembersAllFound(users: map<string, UserProfile>, memberIds: seq<string>)
    requires forall id :: id in memberIds ==> id in users
    ensures |QueryUidIn(users, memberIds)| == |memberIds|
    ensures forall k :: 0 <= k < |memberIds| ==> QueryUidIn(users, memberIds)[k] == users[memberIds[k]]
  {
    if memberIds != [] {
      MembersAllFound(users, memberIds[1..]);
    }
  }

  /** A 45-member group needs two queries and yields 45 profiles. */
  lemma FortyFiveMembers(db: Db, gid: string)
    requires Consistent(db) && gid in db.groups && |db.groups[gid].memberIds| == 45
    ensures |Chunks(db.groups[gid].memberIds, MaxInQuerySize)| == 2
    ensures |QueryUidIn(db.users, db.groups[gid].memberIds)| == 45
  {
    var ids := db.groups[gid].memberIds;
    ChunksShape(ids, MaxInQuerySize);
    assert forall id :: id in ids ==> Listed(db, gid, id);
    MembersAllFound(db.users, ids);
  }

  /** `query(users, where('groupId', '==', null))`: the users whose groupId is null. */
  function UsersWithoutGroup(users: map<string, UserProfile>): (r: map<string, UserProfile>)
    ensures forall u :: u in r <==> u in users && users[u].groupId.None?
    ensures forall u :: u in r ==> r[u] == users[u]
  {
    map u | u in users && users[u].groupId.None? :: users[u]
  }

  /** In a consistent store, no user offered for adding is listed in any group. */
  lemma UsersWithoutGroupUnlisted(db: Db, u: string, gid: string)
    requires Consistent(db) && u in UsersWithoutGroup(db.users)
    ensures !Listed(db, gid, u)
  {
    UngroupedIsUnlisted(db, u, gid);
  }

  /** After a committed add, the added user is no longer offered for
      adding; after a committed removal, the removed user is offered again. */
  lemma PickerFollowsMembership(db: Db, gid: string, target: string, ok: bool)
    ensures AddMemberStep(db, gid, target, ok).outcome == Done ==>
      target !in UsersWithoutGroup(AddMemberStep(db, gid, target, ok).db.users)
    ensures RemoveMemberStep(db, gid, target, ok).outcome == Done ==>
      target in UsersWithoutGroup(RemoveMemberStep(db, gid, target, ok).db.users)
  {
  }
}
