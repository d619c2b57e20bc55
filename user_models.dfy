/** User records and their public projections (src/user/models.rs). */
module UserModels {
  import opened Types
  import opened MessageModels

  /** A one-time pre-key. */
  datatype Opk = Opk(uuid: string, key: Bytes32)

  /** The user's published key bundle. */
  datatype Key = Key(ikPub: Bytes32, spkPub: Bytes32, opkPub: seq<Opk>)

  /** The stored user document. The three id lists are the friend graph: `pendingFriendRequests`
      holds the users this one asked, `friendsRequests` the users who asked this one. */
  datatype User = User(
    uuid: string,
    username: string,
    passwordHash: string,
    description: Option<string>,
    profilePicture: Option<string>,
    pendingFriendRequests: seq<string>,
    friendsRequests: seq<string>,
    friends: seq<string>,
    keys: Key,
    unreadMessages: seq<Message>)

  datatype UserPublic = UserPublic(uuid: string, username: string, description: Option<string>, profilePicture: Option<string>)

  datatype UserPublicFriend = UserPublicFriend(
    uuid: string, username: string, description: Option<string>, profilePicture: Option<string>, keys: Key)

  datatype UserPrivate = UserPrivate(
    uuid: string, username: string, description: Option<string>, profilePicture: Option<string>, keys: Key,
    pendingFriendRequests: seq<string>, friendsRequests: seq<string>, friends: seq<string>)

  /** `UserResponse`: what `get_by_id` shows of another user. */
  datatype UserResponse = Public(public: UserPublic) | PublicFriend(friend: UserPublicFriend)

  /** `Key::new`. */
  function NewKey(ikPub: Bytes32, spkPub: Bytes32, opkPub: seq<Opk>): (k: Key)
    ensures k.ikPub == ikPub && k.spkPub == spkPub && k.opkPub == opkPub
  {
    Key(ikPub, spkPub, opkPub)
  }

  /** `User::new`, the random `uuid` given: a user with no description, no picture, no friend
      graph entries and no unread messages. */
  function NewUser(uuid: string, username: string, passwordHash: string, keys: Key): (u: User)
    ensures u.uuid == uuid && u.username == username && u.passwordHash == passwordHash && u.keys == keys
    ensures u.description == None && u.profilePicture == None
    ensures u.pendingFriendRequests == [] && u.friendsRequests == [] && u.friends == []
    ensures u.unreadMessages == []
  {
    User(uuid, username, passwordHash, None, None, [], [], [], keys, [])
  }

  /** The public view: identity, description and picture only. */
  function ToPublic(u: User): (r: UserPublic)
    ensures r.uuid == u.uuid && r.username == u.username
    ensures r.description == u.description && r.profilePicture == u.profilePicture
  {
    UserPublic(u.uuid, u.username, u.description, u.profilePicture)
  }

  /** The friend view is the public view plus exactly the key bundle. */
  function ToPublicFriend(u: User): (r: UserPublicFriend)
    ensures var p := ToPublic(u);
      r.uuid == p.uuid && r.username == p.username && r.description == p.description
      && r.profilePicture == p.profilePicture && r.keys == u.keys
  {
    UserPublicFriend(u.uuid, u.username, u.description, u.profilePicture, u.keys)
  }

  /** The owner's view: everything but the password hash and the unread messages. */
  function ToPrivate(u: User): (r: UserPrivate)
    ensures r.uuid == u.uuid && r.username == u.username
    ensures r.description == u.description && r.profilePicture == u.profilePicture && r.keys == u.keys
    ensures r.pendingFriendRequests == u.pendingFriendRequests && r.friendsRequests == u.friendsRequests
    ensures r.friends == u.friends
  {
    UserPrivate(u.uuid, u.username, u.description, u.profilePicture, u.keys,
                u.pendingFriendRequests, u.friendsRequests, u.friends)
  }

  /** None of the three views reveals the password hash or the unread messages: records that
      differ only there look the same. */
  lemma ViewsHideSecrets(u: User, hash: string, unread: seq<Message>)
    ensures var v := u.(passwordHash := hash, unreadMessages := unread);
      ToPublic(v) == ToPublic(u) && ToPublicFriend(v) == ToPublicFriend(u) && ToPrivate(v) == ToPrivate(u)
  {
  }
}
