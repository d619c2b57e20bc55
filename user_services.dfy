/** Profile reads and updates and the friend-request graph (src/user/services.rs). Every friend
    operation loads both documents, edits their id lists and writes the user's document, then the
    friend's, as two separate updates. */
module UserServices {
  import opened Types
  import opened Errors
  import opened UserModels
  import opened UserStore

  /** `Vec::retain(|id| id != x)`: every occurrence of `x` goes, every other entry stays. */
  function Without(s: seq<string>, x: string): (r: seq<string>)
    ensures forall y :: y in r <==> y in s && y != x
  {
    if s == [] then []
    else
      assert s == [s[0]] + s[1..];
      if s[0] == x then Without(s[1..], x) else [s[0]] + Without(s[1..], x)
  }

  /** `Without` keeps every other entry as often as it occurred. */
  lemma {:induction false} WithoutCounts(s: seq<string>, x: string, y: string)
    requires y != x
    ensures multiset(Without(s, x))[y] == multiset(s)[y]
    ensures multiset(Without(s, x))[x] == 0
  {
    if s != [] {
      assert s == [s[0]] + s[1..];
      WithoutCounts(s[1..], x, y);
    }
  }

  /* ---------- The friend graph and its invariants ---------- */

  /** Every id in a friend list names a stored user. */
  ghost predicate Closed(m: map<string, User>) {
    && (forall a, x :: a in m && x in m[a].pendingFriendRequests ==> x in m)
    && (forall a, x :: a in m && x in m[a].friendsRequests ==> x in m)
    && (forall a, x :: a in m && x in m[a].friends ==> x in m)
  }

  /** A request is recorded on both sides or on neither: `x` is in `a`'s pending list iff `a` is
      in `x`'s requests list. */
  ghost predicate Paired(m: map<string, User>) {
    forall a, x :: a in m && x in m ==> (x in m[a].pendingFriendRequests <==> a in m[x].friendsRequests)
  }

  /** Friendship is symmetric. */
  ghost predicate Symmetric(m: map<string, User>) {
    forall a, x :: a in m && x in m ==> (x in m[a].friends <==> a in m[x].friends)
  }

  ghost predicate Social(m: map<string, User>) { Closed(m) && Paired(m) && Symmetric(m) }

  /** The request path of `request_friendship`: `fid` appended to the user's pending list, then
      `uid` to the friend's requests list. */
  function AddRequest(m: map<string, User>, uid: string, fid: string): map<string, User>
    requires uid in m && fid in m
  {
    var u, f := m[uid], m[fid];
    m[uid := u.(pendingFriendRequests := u.pendingFriendRequests + [fid])]
     [fid := f.(friendsRequests := f.friendsRequests + [uid])]
  }

  /** `accept_friendship`: the request from `fid` to `uid` is removed on both sides and each is
      appended to the other's friends. */
  function Befriend(m: map<string, User>, uid: string, fid: string): map<string, User>
    requires uid in m && fid in m
  {
    var u, f := m[uid], m[fid];
    m[uid := u.(friendsRequests := Without(u.friendsRequests, fid), friends := u.friends + [fid])]
     [fid := f.(pendingFriendRequests := Without(f.pendingFriendRequests, uid), friends := f.friends + [uid])]
  }

  /** `decline_friendship`: the request from `fid` to `uid` is removed on both sides. */
  function DropRequest(m: map<string, User>, uid: string, fid: string): map<string, User>
    requires uid in m && fid in m
  {
    var u, f := m[uid], m[fid];
    m[uid := u.(friendsRequests := Without(u.friendsRequests, fid))]
     [fid := f.(pendingFriendRequests := Without(f.pendingFriendRequests, uid))]
  }

  /** `remove_friendship`: each is removed from the other's friends. */
  function Unfriend(m: map<string, User>, uid: string, fid: string): map<string, User>
    requires uid in m && fid in m
  {
    var u, f := m[uid], m[fid];
    m[uid := u.(friends := Without(u.friends, fid))][fid := f.(friends := Without(f.friends, uid))]
  }

  /** One document of the graph after a request is recorded. */
  lemma AddRequestAt(m: map<string, User>, uid: string, fid: string, a: string)
    requires uid in m && fid in m && uid != fid && a in m
    ensures var m' := AddRequest(m, uid, fid);
      && a in m'
      && m'[a].friends == m[a].friends
      && (a == uid ==> m'[a].pendingFriendRequests == m[uid].pendingFriendRequests + [fid]
                       && m'[a].friendsRequests == m[uid].friendsRequests)
      && (a == fid ==> m'[a].pendingFriendRequests == m[fid].pendingFriendRequests
                       && m'[a].friendsRequests == m[fid].friendsRequests + [uid])
      && (a != uid && a != fid ==> m'[a] == m[a])
  {
  }

  lemma AddRequestKeepsClosed(m: map<string, User>, uid: string, fid: string)
    requires Closed(m) && uid in m && fid in m && uid != fid
    ensures Closed(AddRequest(m, uid, fid))
  {
    var m' := AddRequest(m, uid, fid);
    assert m'.Keys == m.Keys;
    forall a, x | a in m' && x in m'[a].pendingFriendRequests ensures x in m' {
      AddRequestAt(m, uid, fid, a);
      assert x in m[a].pendingFriendRequests || x == fid;
    }
    forall a, x | a in m' && x in m'[a].friendsRequests ensures x in m' {
      AddRequestAt(m, uid, fid, a);
      assert x in m[a].friendsRequests || x == uid;
    }
    forall a, x | a in m' && x in m'[a].friends ensures x in m' {
      AddRequestAt(m, uid, fid, a);
      assert x in m[a].friends;
    }
  }

  lemma AddRequestKeepsPaired(m: map<string, User>, uid: string, fid: string)
    requires Paired(m) && uid in m && fid in m && uid != fid
    ensures Paired(AddRequest(m, uid, fid))
  {
    var m' := AddRequest(m, uid, fid);
    forall a, x | a in m' && x in m'
      ensures x in m'[a].pendingFriendRequests <==> a in m'[x].friendsRequests
    {
      AddRequestAt(m, uid, fid, a);
      AddRequestAt(m, uid, fid, x);
      assert x in m[a].pendingFriendRequests <==> a in m[x].friendsRequests;
    }
  }

  lemma AddRequestKeepsSymmetric(m: map<string, User>, uid: string, fid: string)
    requires Symmetric(m) && uid in m && fid in m && uid != fid
    ensures Symmetric(AddRequest(m, uid, fid))
  {
    var m' := AddRequest(m, uid, fid);
    forall a, x | a in m' && x in m'
      ensures x in m'[a].friends <==> a in m'[x].friends
    {
      AddRequestAt(m, uid, fid, a);
      AddRequestAt(m, uid, fid, x);
      assert x in m[a].friends <==> a in m[x].friends;
    }
  }

  /** `request_friendship`'s request path keeps the graph consistent. */
  lemma AddRequestKeepsSocial(m: map<string, User>, uid: string, fid: string)
    requires Social(m) && uid in m && fid in m && uid != fid
    ensures Social(AddRequest(m, uid, fid))
    ensures fid in AddRequest(m, uid, fid)[uid].pendingFriendRequests
  {
    AddRequestKeepsClosed(m, uid, fid);
    AddRequestKeepsPaired(m, uid, fid);
    AddRequestKeepsSymmetric(m, uid, fid);
    AddRequestAt(m, uid, fid, uid);
  }

  /** One document of the graph after an accept. */
  lemma BefriendAt(m: map<string, User>, uid: string, fid: string, a: string)
    requires uid in m && fid in m && uid != fid && a in m
    ensures var m', u, f := Befriend(m, uid, fid), m[uid], m[fid];
      && a in m'
      && (a == uid ==> m'[a].pendingFriendRequests == u.pendingFriendRequests
                       && m'[a].friendsRequests == Without(u.friendsRequests, fid) && m'[a].friends == u.friends + [fid])
      && (a == fid ==> m'[a].pendingFriendRequests == Without(f.pendingFriendRequests, uid)
                       && m'[a].friendsRequests == f.friendsRequests && m'[a].friends == f.friends + [uid])
      && (a != uid && a != fid ==> m'[a] == m[a])
  {
  }

  lemma BefriendKeepsClosed(m: map<string, User>, uid: string, fid: string)
    requires Closed(m) && uid in m && fid in m && uid != fid
    ensures Closed(Befriend(m, uid, fid))
  {
    var m' := Befriend(m, uid, fid);
    assert m'.Keys == m.Keys;
    forall a, x | a in m' && x in m'[a].pendingFriendRequests ensures x in m' {
      BefriendAt(m, uid, fid, a);
      assert x in m[a].pendingFriendRequests;
    }
    forall a, x | a in m' && x in m'[a].friendsRequests ensures x in m' {
      BefriendAt(m, uid, fid, a);
      assert x in m[a].friendsRequests;
    }
    forall a, x | a in m' && x in m'[a].friends ensures x in m' {
      BefriendAt(m, uid, fid, a);
      assert x in m[a].friends || x == fid || x == uid;
    }
  }

  lemma BefriendKeepsPaired(m: map<string, User>, uid: string, fid: string)
    requires Paired(m) && uid in m && fid in m && uid != fid
    ensures Paired(Befriend(m, uid, fid))
  {
    var m' := Befriend(m, uid, fid);
    forall a, x | a in m' && x in m'
      ensures x in m'[a].pendingFriendRequests <==> a in m'[x].friendsRequests
    {
      BefriendAt(m, uid, fid, a);
      BefriendAt(m, uid, fid, x);
      assert x in m[a].pendingFriendRequests <==> a in m[x].friendsRequests;
    }
  }

  lemma BefriendKeepsSymmetric(m: map<string, User>, uid: string, fid: string)
    requires Symmetric(m) && uid in m && fid in m && uid != fid
    ensures Symmetric(Befriend(m, uid, fid))
  {
    var m' := Befriend(m, uid, fid);
    forall a, x | a in m' && x in m'
      ensures x in m'[a].friends <==> a in m'[x].friends
    {
      BefriendAt(m, uid, fid, a);
      BefriendAt(m, uid, fid, x);
      assert x in m[a].friends <==> a in m[x].friends;
    }
  }

  /** `accept_friendship` keeps the graph consistent and completes the friendship. */
  lemma BefriendKeepsSocial(m: map<string, User>, uid: string, fid: string)
    requires Social(m) && uid in m && fid in m && uid != fid
    ensures Social(Befriend(m, uid, fid))
    ensures var m' := Befriend(m, uid, fid);
      fid in m'[uid].friends && uid in m'[fid].friends
      && fid !in m'[uid].friendsRequests && uid !in m'[fid].pendingFriendRequests
  {
    BefriendKeepsClosed(m, uid, fid);
    BefriendKeepsPaired(m, uid, fid);
    BefriendKeepsSymmetric(m, uid, fid);
    BefriendAt(m, uid, fid, uid);
    BefriendAt(m, uid, fid, fid);
  }

  /** One document of the graph after a decline. */
  lemma DropRequestAt(m: map<string, User>, uid: string, fid: string, a: string)
    requires uid in m && fid in m && uid != fid && a in m
    ensures var m' := DropRequest(m, uid, fid);
      && a in m'
      && m'[a].friends == m[a].friends
      && (a == uid ==> m'[a].pendingFriendRequests == m[uid].pendingFriendRequests
                       && m'[a].friendsRequests == Without(m[uid].friendsRequests, fid))
      && (a == fid ==> m'[a].pendingFriendRequests == Without(m[fid].pendingFriendRequests, uid)
                       && m'[a].friendsRequests == m[fid].friendsRequests)
      && (a != uid && a != fid ==> m'[a] == m[a])
  {
  }

  lemma {:induction false} DropRequestKeepsSocial(m: map<string, User>, uid: string, fid: string)
    requires Social(m) && uid in m && fid in m && uid != fid
    ensures Social(DropRequest(m, uid, fid))
    ensures var m' := DropRequest(m, uid, fid);
      fid !in m'[uid].friendsRequests && uid !in m'[fid].pendingFriendRequests
      && m'[uid].friends == m[uid].friends && m'[fid].friends == m[fid].friends
  {
    var m' := DropRequest(m, uid, fid);
    assert m'.Keys == m.Keys;
    DropRequestAt(m, uid, fid, uid);
    DropRequestAt(m, uid, fid, fid);
    forall a, x | a in m' && x in m'[a].pendingFriendRequests ensures x in m' {
      DropRequestAt(m, uid, fid, a);
      assert x in m[a].pendingFriendRequests;
    }
    forall a, x | a in m' && x in m'[a].friendsRequests ensures x in m' {
      DropRequestAt(m, uid, fid, a);
      assert x in m[a].friendsRequests;
    }
    forall a, x | a in m' && x in m'[a].friends ensures x in m' {
      DropRequestAt(m, uid, fid, a);
      assert x in m[a].friends;
    }
    forall a, x | a in m' && x in m'
      ensures x in m'[a].pendingFriendRequests <==> a in m'[x].friendsRequests
    {
      DropRequestAt(m, uid, fid, a);
      DropRequestAt(m, uid, fid, x);
      assert x in m[a].pendingFriendRequests <==> a in m[x].friendsRequests;
    }
    forall a, x | a in m' && x in m'
      ensures x in m'[a].friends <==> a in m'[x].friends
    {
      DropRequestAt(m, uid, fid, a);
      DropRequestAt(m, uid, fid, x);
    }
  }

  /** One document of the graph after an unfriend. */
  lemma UnfriendAt(m: map<string, User>, uid: string, fid: string, a: string)
    requires uid in m && fid in m && uid != fid && a in m
    ensures var m' := Unfriend(m, uid, fid);
      && a in m'
      && m'[a].pendingFriendRequests == m[a].pendingFriendRequests
      && m'[a].friendsRequests == m[a].friendsRequests
      && (a == uid ==> m'[a].friends == Without(m[uid].friends, fid))
      && (a == fid ==> m'[a].friends == Without(m[fid].friends, uid))
      && (a != uid && a != fid ==> m'[a] == m[a])
  {
  }

  lemma {:induction false} UnfriendKeepsSocial(m: map<string, User>, uid: string, fid: string)
    requires Social(m) && uid in m && fid in m && uid != fid
    ensures Social(Unfriend(m, uid, fid))
    ensures var m' := Unfriend(m, uid, fid); fid !in m'[uid].friends && uid !in m'[fid].friends
  {
    var m' := Unfriend(m, uid, fid);
    assert m'.Keys == m.Keys;
    forall a, x | a in m' && x in m'[a].pendingFriendRequests ensures x in m' {
      UnfriendAt(m, uid, fid, a);
    }
    forall a, x | a in m' && x in m'[a].friendsRequests ensures x in m' {
      UnfriendAt(m, uid, fid, a);
    }
    forall a, x | a in m' && x in m'[a].friends ensures x in m' {
      UnfriendAt(m, uid, fid, a);
      assert x in m[a].friends;
    }
    forall a, x | a in m' && x in m'
      ensures x in m'[a].pendingFriendRequests <==> a in m'[x].friendsRequests
    {
      UnfriendAt(m, uid, fid, a);
      UnfriendAt(m, uid, fid, x);
    }
    forall a, x | a in m' && x in m'
      ensures x in m'[a].friends <==> a in m'[x].friends
    {
      UnfriendAt(m, uid, fid, a);
      UnfriendAt(m, uid, fid, x);
      assert x in m[a].friends <==> a in m[x].friends;
    }
    UnfriendAt(m, uid, fid, uid);
    UnfriendAt(m, uid, fid, fid);
  }

  /** Rewriting a document without touching its three lists keeps the graph consistent. */
  lemma ListsUntouchedKeepSocial(m: map<string, User>, id: string, u: User)
    requires Social(m) && id in m
    requires u.pendingFriendRequests == m[id].pendingFriendRequests
    requires u.friendsRequests == m[id].friendsRequests && u.friends == m[id].friends
    ensures Social(m[id := u])
  {
    var m' := m[id := u];
    forall a | a in m'
      ensures m'[a].pendingFriendRequests == m[a].pendingFriendRequests
      ensures m'[a].friendsRequests == m[a].friendsRequests && m'[a].friends == m[a].friends
    {
    }
  }

  /** A user inserted under a fresh uuid (`User::new`) keeps the graph consistent. */
  lemma InsertNewUserKeepsSocial(m: map<string, User>, u: User)
    requires Social(m) && u.uuid !in m
    requires u.pendingFriendRequests == [] && u.friendsRequests == [] && u.friends == []
    ensures Social(m[u.uuid := u])
  {
  }

  /* ---------- Error replies ---------- */

  const CannotRequestSelf := ErrorResponseOf(BadRequest, Some("Cannot send friend request to yourself"))
  const AlreadyFriends := ErrorResponseOf(BadRequest, Some("Already friends"))
  const AlreadySent := ErrorResponseOf(BadRequest, Some("Friend request already sent"))
  const CannotAcceptSelf := ErrorResponseOf(BadRequest, Some("Cannot accept friend request from yourself"))
  const RequestNotFound := ErrorResponseOf(BadRequest, Some("Friend request not found"))
  const RequestNotFoundOnFriendSide := ErrorResponseOf(BadRequest, Some("Friend request not found on friend's side"))
  const CannotDeclineSelf := ErrorResponseOf(BadRequest, Some("Cannot decline friendship with yourself"))
  const NoPendingRequest := ErrorResponseOf(BadRequest, Some("No pending friend request from this user"))
  const CannotRemoveSelf := ErrorResponseOf(BadRequest, Some("Cannot remove friendship with yourself"))
  const NotFriends := ErrorResponseOf(BadRequest, Some("Not friends with this user"))
  const UpdateNameTaken := ErrorResponseOf(BadRequest, Some("Username already taken"))
  const NoFieldsToUpdate := ErrorResponseOf(BadRequest, Some("No fields to update"))

  const RequestSent := "Friend request sent!"
  const AutoAccepted := "Friendship auto-accepted (mutual request)"

  /* ---------- Profile reads and update ---------- */

  /** `get_profile`: the private view of one's own document. */
  method GetProfile(db: Users, userId: string) returns (r: Result<UserPrivate, ErrorResponse>)
    ensures userId !in db.records ==> r == Err(UserNotFound)
    ensures userId in db.records ==> r.Ok? && r.value == ToPrivate(db.records[userId])
  {
    var found := db.FindUser(userId);
    if found.Err? {
      return Err(found.error);
    }
    r := Ok(ToPrivate(found.value));
  }

  /** `get_by_id`: another user's document; the key bundle is shown iff the requester is in the
      target's friends. */
  method GetById(db: Users, userId: string, targetId: string) returns (r: Result<UserResponse, ErrorResponse>)
    ensures r.Ok? <==> targetId in db.records
    ensures r.Err? ==> r.error == UserNotFound
    ensures r.Ok? ==> (r.value.PublicFriend? <==> userId in db.records[targetId].friends)
    ensures r.Ok? && r.value.PublicFriend? ==> r.value.friend == ToPublicFriend(db.records[targetId])
    ensures r.Ok? && r.value.Public? ==> r.value.public == ToPublic(db.records[targetId])
  {
    var found := db.FindUser(targetId);
    if found.Err? {
      return Err(found.error);
    }
    var user := found.value;
    var isFriend := userId in user.friends;
    if isFriend {
      r := Ok(PublicFriend(ToPublicFriend(user)));
    } else {
      r := Ok(Public(ToPublic(user)));
    }
  }

  /** The optional new values of `update_user`. */
  datatype UserUpdatePayload = UserUpdatePayload(username: Option<string>, description: Option<string>, profilePicture: Option<string>)

  /** The document after the `$set` of the given fields. */
  function ApplyUpdate(u: User, updates: UserUpdatePayload): User {
    u.(username := if updates.username.Some? then updates.username.value else u.username,
       description := if updates.description.Some? then Some(updates.description.value) else u.description,
       profilePicture := if updates.profilePicture.Some? then Some(updates.profilePicture.value) else u.profilePicture)
  }

  /** `update_user`: a name held by another user (the first found) is refused, keeping one's own
      name is allowed, an update with no field is refused; otherwise the fields given are set and
      the new private view returned. */
  method UpdateUser(db: Users, userId: string, updates: UserUpdatePayload) returns (r: Result<UserPrivate, ErrorResponse>)
    requires db.Valid()
    modifies db
    ensures db.Valid() && db.order == old(db.order)
    ensures updates.username.Some? && old(db.FindByUsername(updates.username.value)).Some?
            && old(db.FindByUsername(updates.username.value)).value.uuid != userId
      ==> r == Err(UpdateNameTaken) && db.records == old(db.records)
    ensures updates.username.None? && updates.description.None? && updates.profilePicture.None?
      ==> r == Err(NoFieldsToUpdate) && db.records == old(db.records)
    ensures !(updates.username.Some? && old(db.FindByUsername(updates.username.value)).Some?
              && old(db.FindByUsername(updates.username.value)).value.uuid != userId)
            && !(updates.username.None? && updates.description.None? && updates.profilePicture.None?) ==>
      && db.records == (if userId in old(db.records) then old(db.records)[userId := ApplyUpdate(old(db.records)[userId], updates)]
                        else old(db.records))
      && r == (if userId in old(db.records) then Ok(ToPrivate(db.records[userId])) else Err(UserNotFound))
    ensures old(Social(db.records)) ==> Social(db.records)
  {
    if updates.username.Some? {
      var existing := db.FindByUsername(updates.username.value);
      if existing.Some? && existing.value.uuid != userId {
        return Err(UpdateNameTaken);
      }
    }
    if updates.username.None? && updates.description.None? && updates.profilePicture.None? {
      return Err(NoFieldsToUpdate);
    }
    if userId in db.records {
      if Social(db.records) {
        ListsUntouchedKeepSocial(db.records, userId, ApplyUpdate(db.records[userId], updates));
      }
      db.UpdateUserFields(userId, ApplyUpdate(db.records[userId], updates));
    }
    r := GetProfile(db, userId);
  }

  /* ---------- Friend requests ---------- */

  /** `accept_friendship(user, friend)`: `friend` had asked `user`. */
  method AcceptFriendship(db: Users, userId: string, friendId: string) returns (r: Result<(), ErrorResponse>)
    requires db.Valid()
    modifies db
    ensures db.Valid() && db.order == old(db.order)
    ensures userId !in old(db.records) || friendId !in old(db.records) ==>
      r == Err(UserNotFound) && db.records == old(db.records)
    ensures userId in old(db.records) && friendId in old(db.records) ==>
      var u, f := old(db.records)[userId], old(db.records)[friendId];
      if userId == friendId then r == Err(CannotAcceptSelf) && db.records == old(db.records)
      else if friendId !in u.friendsRequests then r == Err(RequestNotFound) && db.records == old(db.records)
      else if userId !in f.pendingFriendRequests then r == Err(RequestNotFoundOnFriendSide) && db.records == old(db.records)
      else r == Ok(()) && db.records == Befriend(old(db.records), userId, friendId)
    ensures old(Social(db.records)) ==> Social(db.records)
  {
    ghost var m := db.records;
    var ur := db.FindUser(userId);
    if ur.Err? {
      return Err(ur.error);
    }
    var fr := db.FindUser(friendId);
    if fr.Err? {
      return Err(fr.error);
    }
    var user, friend := ur.value, fr.value;
    if user.uuid == friend.uuid {
      return Err(CannotAcceptSelf);
    }
    if friendId !in user.friendsRequests {
      return Err(RequestNotFound);
    }
    if userId !in friend.pendingFriendRequests {
      return Err(RequestNotFoundOnFriendSide);
    }
    user := user.(friendsRequests := Without(user.friendsRequests, friendId), friends := user.friends + [friendId]);
    friend := friend.(pendingFriendRequests := Without(friend.pendingFriendRequests, userId), friends := friend.friends + [userId]);
    db.UpdateUserFields(userId, user);
    db.UpdateUserFields(friendId, friend);
    if Social(m) {
      BefriendKeepsSocial(m, userId, friendId);
    }
    r := Ok(());
  }

  /** `request_friendship`: refusals in the source's order, then an auto-accept when the friend
      had already asked the user, else the request recorded on both sides. */
  method RequestFriendship(db: Users, userId: string, friendId: string) returns (r: Result<string, ErrorResponse>)
    requires db.Valid()
    modifies db
    ensures db.Valid() && db.order == old(db.order)
    ensures userId !in old(db.records) || friendId !in old(db.records) ==>
      r == Err(UserNotFound) && db.records == old(db.records)
    ensures userId in old(db.records) && friendId in old(db.records) ==>
      var u, f := old(db.records)[userId], old(db.records)[friendId];
      if userId == friendId then r == Err(CannotRequestSelf) && db.records == old(db.records)
      else if friendId in u.friends || userId in f.friends then r == Err(AlreadyFriends) && db.records == old(db.records)
      else if friendId in u.pendingFriendRequests || userId in f.friendsRequests then
        r == Err(AlreadySent) && db.records == old(db.records)
      else if friendId in u.friendsRequests && userId in f.pendingFriendRequests then
        r == Ok(AutoAccepted) && db.records == Befriend(old(db.records), userId, friendId)
      else r == Ok(RequestSent) && db.records == AddRequest(old(db.records), userId, friendId)
    ensures old(Social(db.records)) ==> Social(db.records)
  {
    ghost var m := db.records;
    var ur := db.FindUser(userId);
    if ur.Err? {
      return Err(ur.error);
    }
    var fr := db.FindUser(friendId);
    if fr.Err? {
      return Err(fr.error);
    }
    var user, friend := ur.value, fr.value;
    if user.uuid == friend.uuid {
      return Err(CannotRequestSelf);
    }
    if friendId in user.friends {
      return Err(AlreadyFriends);
    }
    if userId in friend.friends {
      return Err(AlreadyFriends);
    }
    if friendId in user.pendingFriendRequests {
      return Err(AlreadySent);
    }
    if userId in friend.friendsRequests {
      return Err(AlreadySent);
    }
    if friendId in user.friendsRequests && userId in friend.pendingFriendRequests {
      var accepted := AcceptFriendship(db, userId, friendId);
      assert accepted.Ok?;
      return Ok(AutoAccepted);
    }
    user := user.(pendingFriendRequests := user.pendingFriendRequests + [friendId]);
    friend := friend.(friendsRequests := friend.friendsRequests + [userId]);
    db.UpdateUserFields(userId, user);
    db.UpdateUserFields(friendId, friend);
    if Social(m) {
      AddRequestKeepsSocial(m, userId, friendId);
    }
    r := Ok(RequestSent);
  }

  /** `decline_friendship(user, friend)`: `friend` had asked `user`; the request goes, the
      friends lists stay. */
  method DeclineFriendship(db: Users, userId: string, friendId: string) returns (r: Result<(), ErrorResponse>)
    requires db.Valid()
    modifies db
    ensures db.Valid() && db.order == old(db.order)
    ensures userId !in old(db.records) || friendId !in old(db.records) ==>
      r == Err(UserNotFound) && db.records == old(db.records)
    ensures userId in old(db.records) && friendId in old(db.records) ==>
      var u, f := old(db.records)[userId], old(db.records)[friendId];
      if userId == friendId then r == Err(CannotDeclineSelf) && db.records == old(db.records)
      else if friendId !in u.friendsRequests || userId !in f.pendingFriendRequests then
        r == Err(NoPendingRequest) && db.records == old(db.records)
      else r == Ok(()) && db.records == DropRequest(old(db.records), userId, friendId)
    ensures old(Social(db.records)) ==> Social(db.records)
  {
    ghost var m := db.records;
    var ur := db.FindUser(userId);
    if ur.Err? {
      return Err(ur.error);
    }
    var fr := db.FindUser(friendId);
    if fr.Err? {
      return Err(fr.error);
    }
    var user, friend := ur.value, fr.value;
    if user.uuid == friend.uuid {
      return Err(CannotDeclineSelf);
    }
    if friendId !in user.friendsRequests {
      return Err(NoPendingRequest);
    }
    if userId !in friend.pendingFriendRequests {
      return Err(NoPendingRequest);
    }
    user := user.(friendsRequests := Without(user.friendsRequests, friendId));
    friend := friend.(pendingFriendRequests := Without(friend.pendingFriendRequests, userId));
    db.UpdateUserFields(userId, user);
    db.UpdateUserFields(friendId, friend);
    if Social(m) {
      DropRequestKeepsSocial(m, userId, friendId);
    }
    r := Ok(());
  }

  /** `remove_friendship`: both must list each other; then each leaves the other's friends. */
  method RemoveFriendship(db: Users, userId: string, friendId: string) returns (r: Result<(), ErrorResponse>)
    requires db.Valid()
    modifies db
    ensures db.Valid() && db.order == old(db.order)
    ensures userId !in old(db.records) || friendId !in old(db.records) ==>
      r == Err(UserNotFound) && db.records == old(db.records)
    ensures userId in old(db.records) && friendId in old(db.records) ==>
      var u, f := old(db.records)[userId], old(db.records)[friendId];
      if userId == friendId then r == Err(CannotRemoveSelf) && db.records == old(db.records)
      else if friendId !in u.friends || userId !in f.friends then r == Err(NotFriends) && db.records == old(db.records)
      else r == Ok(()) && db.records == Unfriend(old(db.records), userId, friendId)
    ensures old(Social(db.records)) ==> Social(db.records)
  {
    ghost var m := db.records;
    var ur := db.FindUser(userId);
    if ur.Err? {
      return Err(ur.error);
    }
    var fr := db.FindUser(friendId);
    if fr.Err? {
      return Err(fr.error);
    }
    var user, friend := ur.value, fr.value;
    if user.uuid == friend.uuid {
      return Err(CannotRemoveSelf);
    }
    if friendId !in user.friends {
      return Err(NotFriends);
    }
    if userId !in friend.friends {
      return Err(NotFriends);
    }
    user := user.(friends := Without(user.friends, friendId));
    friend := friend.(friends := Without(friend.friends, userId));
    db.UpdateUserFields(userId, user);
    db.UpdateUserFields(friendId, friend);
    if Social(m) {
      UnfriendKeepsSocial(m, userId, friendId);
    }
    r := Ok(());
  }
}
