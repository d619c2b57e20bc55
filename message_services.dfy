/** The encrypted-message inbox (src/message/services.rs): sending appends to the receiver's
    `unread_messages`, reading removes a message from one's own. */
module MessageServices {
  import opened Types
  import opened Errors
  import opened MessageModels
  import opened UserModels
  import opened UserStore
  import opened UserServices

  const SenderMismatch := ErrorResponseOf(BadRequest, Some("The message sender and the JWT id must be the same"))
  const SelfMessage := ErrorResponseOf(BadRequest, Some("Sender and receiver cannot be the same"))
  const ReceiverMissing := ErrorResponseOf(NotFound, Some("Receiver user does not exist"))
  const MessageNotFound := ErrorResponseOf(NotFound, Some("User or message not found"))

  /** The collection after `msg` is appended to its receiver's inbox. */
  function Deliver(m: map<string, User>, msg: Message): map<string, User>
    requires msg.receiver in m
  {
    m[msg.receiver := m[msg.receiver].(unreadMessages := m[msg.receiver].unreadMessages + [msg])]
  }

  /** The collection after every message `id` leaves `userId`'s inbox. */
  function Remove(m: map<string, User>, userId: string, id: string): map<string, User>
    requires userId in m
  {
    m[userId := m[userId].(unreadMessages := Pull(m[userId].unreadMessages, id))]
  }

  /** `send_message`: the checks in order (the authenticated user is the sender, the receiver is
      someone else, the receiver exists), then the message is appended to the receiver's inbox
      and nothing else changes. */
  method SendMessage(db: Users, userId: string, message: Message) returns (r: Result<(), ErrorResponse>)
    requires db.Valid()
    modifies db
    ensures db.Valid() && db.order == old(db.order)
    ensures userId != message.sender ==> r == Err(SenderMismatch) && db.records == old(db.records)
    ensures userId == message.sender && message.sender == message.receiver ==>
      r == Err(SelfMessage) && db.records == old(db.records)
    ensures userId == message.sender && message.sender != message.receiver && message.receiver !in old(db.records) ==>
      r == Err(ReceiverMissing) && db.records == old(db.records)
    ensures userId == message.sender && message.sender != message.receiver && message.receiver in old(db.records) ==>
      r == Ok(()) && db.records == Deliver(old(db.records), message)
    ensures old(Social(db.records)) ==> Social(db.records)
  {
    if userId != message.sender {
      return Err(SenderMismatch);
    }
    if message.sender == message.receiver {
      return Err(SelfMessage);
    }
    var receiver := db.FindUser(message.receiver);
    if receiver.Err? {
      return Err(ReceiverMissing);
    }
    if Social(db.records) {
      var rec := db.records[message.receiver];
      ListsUntouchedKeepSocial(db.records, message.receiver, rec.(unreadMessages := rec.unreadMessages + [message]));
    }
    db.PushUnreadMessage(message.receiver, message);
    r := Ok(());
  }

  /** `read_message`: 404 with no change unless the user's inbox holds a message with that uuid;
      otherwise every such message leaves the inbox and the first of them is returned. */
  method ReadMessage(db: Users, userId: string, messageId: string) returns (r: Result<Message, ErrorResponse>)
    requires db.Valid()
    modifies db
    ensures db.Valid() && db.order == old(db.order)
    ensures !(userId in old(db.records) && HasMessage(old(db.records)[userId].unreadMessages, messageId)) ==>
      r == Err(MessageNotFound) && db.records == old(db.records)
    ensures userId in old(db.records) && HasMessage(old(db.records)[userId].unreadMessages, messageId) ==>
      && r.Ok? && r.value.uuid == messageId && r.value in old(db.records)[userId].unreadMessages
      && r == Ok(FindMessage(old(db.records)[userId].unreadMessages, messageId).value)
      && db.records == Remove(old(db.records), userId, messageId)
    ensures old(Social(db.records)) ==> Social(db.records)
  {
    if userId in db.records && Social(db.records) {
      var rec := db.records[userId];
      ListsUntouchedKeepSocial(db.records, userId, rec.(unreadMessages := Pull(rec.unreadMessages, messageId)));
    }
    var before := db.FindOneAndPull(userId, messageId);
    if before.None? {
      return Err(MessageNotFound);
    }
    // The document matched the filter, so the search below always finds the message and the
    // second 404 of the source cannot be returned.
    var found := FindMessage(before.value.unreadMessages, messageId);
    assert found.Some?;
    r := Ok(found.value);
  }

  lemma {:induction false} PullAppend(s: seq<Message>, t: seq<Message>, id: string)
    ensures Pull(s + t, id) == Pull(s, id) + Pull(t, id)
  {
    if s == [] {
      assert s + t == t;
    } else {
      assert (s + t)[0] == s[0] && (s + t)[1..] == s[1..] + t;
      PullAppend(s[1..], t, id);
    }
  }

  lemma {:induction false} PullAbsent(s: seq<Message>, id: string)
    requires !HasMessage(s, id)
    ensures Pull(s, id) == s
  {
    if s != [] {
      assert !HasMessage(s[1..], id) by {
        forall i | 0 <= i < |s[1..]| ensures s[1..][i].uuid != id { assert s[1..][i] == s[i + 1]; }
      }
      PullAbsent(s[1..], id);
      assert s == [s[0]] + s[1..];
    }
  }

  /** Send then read: a message whose uuid is new to the receiver's inbox is what reading that
      uuid returns, and reading it restores the inbox as it was before the send. */
  lemma ReadAfterSend(m: map<string, User>, msg: Message)
    requires msg.receiver in m
    requires !HasMessage(m[msg.receiver].unreadMessages, msg.uuid)
    ensures var m' := Deliver(m, msg);
      && HasMessage(m'[msg.receiver].unreadMessages, msg.uuid)
      && FindMessage(m'[msg.receiver].unreadMessages, msg.uuid) == Some(msg)
      && Remove(m', msg.receiver, msg.uuid) == m
  {
    var inbox := m[msg.receiver].unreadMessages;
    var inbox' := inbox + [msg];
    assert inbox'[|inbox|] == msg;
    var found := FindMessage(inbox', msg.uuid);
    var i :| 0 <= i < |inbox'| && inbox'[i] == found.value && found.value.uuid == msg.uuid
      && forall j :: 0 <= j < i ==> inbox'[j].uuid != msg.uuid;
    assert forall j :: 0 <= j < |inbox| ==> inbox'[j] == inbox[j];
    assert i == |inbox|;
    PullAppend(inbox, [msg], msg.uuid);
    PullAbsent(inbox, msg.uuid);
    assert Pull([msg], msg.uuid) == [];
    assert Pull(inbox', msg.uuid) == inbox;
    assert m[msg.receiver].(unreadMessages := inbox) == m[msg.receiver];
  }
}
