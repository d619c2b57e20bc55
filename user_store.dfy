/** The `users` MongoDB collection and its thin access helpers `find_user` and
    `update_user_fields` (src/user/utils.rs), with the queries the services run on it. */
module UserStore {
  import opened Types
  import opened Errors
  import opened UserModels
  import opened MessageModels

  const UserNotFound := ErrorResponseOf(NotFound, Some("User not found"))

  /** The first user, in the order `ids` lists them, whose name is `name`. */
  function FirstNamed(ids: seq<string>, records: map<string, User>, name: string): (r: Option<User>)
    ensures r.Some? ==> exists i ::
      && 0 <= i < |ids| && ids[i] in records && records[ids[i]] == r.value
      && r.value.username == name
      && (forall j :: 0 <= j < i && ids[j] in records ==> records[ids[j]].username != name)
    ensures r.None? ==> forall i :: 0 <= i < |ids| && ids[i] in records ==> records[ids[i]].username != name
  {
    if ids == [] then None
    else if ids[0] in records && records[ids[0]].username == name then Some(records[ids[0]])
    else
      var r := FirstNamed(ids[1..], records, name);
      assert forall i :: 1 <= i < |ids| ==> ids[i] == ids[1..][i - 1];
      if r.Some? then
        var i :| 0 <= i < |ids[1..]| && ids[1..][i] in records && records[ids[1..][i]] == r.value
          && r.value.username == name
          && (forall j :: 0 <= j < i && ids[1..][j] in records ==> records[ids[1..][j]].username != name);
        assert ids[i + 1] == ids[1..][i];
        assert forall j :: 1 <= j < i + 1 ==> ids[j] == ids[1..][j - 1];
        r
      else r
  }

  /** A user appended to the scan order under a fresh `uuid` is what a lookup of its name finds,
      when no earlier document had that name. */
  lemma {:induction false} FirstNamedAppend(ids: seq<string>, records: map<string, User>, u: User)
    requires u.uuid !in ids
    requires FirstNamed(ids, records, u.username) == None
    ensures FirstNamed(ids + [u.uuid], records[u.uuid := u], u.username) == Some(u)
  {
    if ids == [] {
      assert ids + [u.uuid] == [u.uuid];
    } else {
      assert (ids + [u.uuid])[0] == ids[0] && (ids + [u.uuid])[1..] == ids[1..] + [u.uuid];
      FirstNamedAppend(ids[1..], records, u);
    }
  }

  /** Whether the inbox holds a message with that uuid (the filter `"unread_messages.uuid": id`). */
  predicate HasMessage(s: seq<Message>, id: string) {
    exists i :: 0 <= i < |s| && s[i].uuid == id
  }

  /** `$pull: { "unread_messages": { "uuid": id } }`: every message with that uuid goes, the others
      stay in order. */
  function Pull(s: seq<Message>, id: string): (r: seq<Message>)
    ensures !HasMessage(r, id)
    ensures forall msg :: msg in r <==> msg in s && msg.uuid != id
  {
    if s == [] then []
    else
      var rest := Pull(s[1..], id);
      assert forall msg :: msg in s <==> msg == s[0] || msg in s[1..];
      if s[0].uuid == id then rest
      else
        assert forall i :: 1 <= i < |[s[0]] + rest| ==> ([s[0]] + rest)[i] == rest[i - 1];
        [s[0]] + rest
  }

  /** `into_iter().find(|msg| msg.uuid == id)`: the first message with that uuid. */
  function FindMessage(s: seq<Message>, id: string): (r: Option<Message>)
    ensures r.Some? <==> HasMessage(s, id)
    ensures r.Some? ==> exists i ::
      && 0 <= i < |s| && s[i] == r.value && r.value.uuid == id
      && forall j :: 0 <= j < i ==> s[j].uuid != id
  {
    if s == [] then None
    else if s[0].uuid == id then Some(s[0])
    else
      var r := FindMessage(s[1..], id);
      assert forall i :: 1 <= i < |s| ==> s[i] == s[1..][i - 1];
      if r.Some? then
        var i :| 0 <= i < |s[1..]| && s[1..][i] == r.value && r.value.uuid == id
          && forall j :: 0 <= j < i ==> s[1..][j].uuid != id;
        assert s[i + 1] == s[1..][i];
        r
      else
        assert !HasMessage(s[1..], id);
        r
  }

  /** The collection: documents keyed by their `uuid`, and the order they were inserted in
      (the natural order `find_one` scans). */
  class Users {
    var records: map<string, User>
    var order: seq<string>

    ghost predicate Valid()
      reads this
    {
      && (forall i, j :: 0 <= i < j < |order| ==> order[i] != order[j])
      && (forall id :: id in records <==> id in order)
      && (forall id :: id in records ==> records[id].uuid == id)
    }

    constructor ()
      ensures Valid() && records == map[] && order == []
    {
      records := map[];
      order := [];
    }

    /** `find_user`: the document with that `uuid`, or 404 "User not found". */
    function FindUser(id: string): (r: Result<User, ErrorResponse>)
      reads this
      ensures r.Ok? <==> id in records
      ensures r.Ok? ==> r.value == records[id]
      ensures r.Err? ==> r.error == UserNotFound
    {
      if id in records then Ok(records[id]) else Err(UserNotFound)
    }

    /** `find_one(doc! { "username": name })`. */
    function FindByUsername(name: string): (r: Option<User>)
      requires Valid()
      reads this
      ensures r.Some? ==> r.value.username == name && r.value.uuid in records && records[r.value.uuid] == r.value
      ensures r.None? <==> forall id :: id in records ==> records[id].username != name
    {
      FirstNamed(order, records, name)
    }

    /** `insert_one` of a document with a fresh `uuid`. */
    method InsertOne(u: User)
      requires Valid()
      requires u.uuid !in records
      modifies this
      ensures Valid()
      ensures records == old(records)[u.uuid := u]
      ensures order == old(order) + [u.uuid]
      ensures old(FindByUsername(u.username)).None? ==> FindByUsername(u.username) == Some(u)
    {
      if FirstNamed(order, records, u.username).None? {
        FirstNamedAppend(order, records, u);
      }
      records := records[u.uuid := u];
      order := order + [u.uuid];
    }

    /** `update_user_fields(id, doc)`: `updated` is the loaded document with the fields of `doc`
        replaced; a missing document is left missing. */
    method UpdateUserFields(id: string, updated: User)
      requires Valid()
      requires updated.uuid == id
      modifies this
      ensures Valid()
      ensures records == if id in old(records) then old(records)[id := updated] else old(records)
      ensures order == old(order)
    {
      if id in records {
        records := records[id := updated];
      }
    }

    /** `update_one({uuid: id}, {"$push": {"unread_messages": msg}})`. */
    method PushUnreadMessage(id: string, msg: Message)
      requires Valid()
      modifies this
      ensures Valid() && order == old(order)
      ensures records == if id in old(records)
        then old(records)[id := old(records)[id].(unreadMessages := old(records)[id].unreadMessages + [msg])]
        else old(records)
    {
      if id in records {
        records := records[id := records[id].(unreadMessages := records[id].unreadMessages + [msg])];
      }
    }

    /** `find_one_and_update({uuid: id, "unread_messages.uuid": messageId}, {"$pull": …})`: the
        document as it was before the pull, when one matches the filter. */
    method FindOneAndPull(id: string, messageId: string) returns (before: Option<User>)
      requires Valid()
      modifies this
      ensures Valid() && order == old(order)
      ensures id in old(records) && HasMessage(old(records)[id].unreadMessages, messageId) ==>
        && before == Some(old(records)[id])
        && records == old(records)[id := old(records)[id].(unreadMessages := Pull(old(records)[id].unreadMessages, messageId))]
      ensures !(id in old(records) && HasMessage(old(records)[id].unreadMessages, messageId)) ==>
        before == None && records == old(records)
    {
      if id in records && HasMessage(records[id].unreadMessages, messageId) {
        before := Some(records[id]);
        records := records[id := records[id].(unreadMessages := Pull(records[id].unreadMessages, messageId))];
      } else {
        before := None;
      }
    }
  }
}
