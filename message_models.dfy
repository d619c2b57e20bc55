/** The end-to-end encrypted message record (src/message/models.rs). */
module MessageModels {
  import opened Types

  /** A `u32`. */
  newtype u32 = n: int | 0 <= n < 0x1_0000_0000

  /** A message as stored in a receiver's `unread_messages`. */
  datatype Message = Message(
    uuid: string,
    sender: string,
    receiver: string,
    nonce: Bytes12,
    ciphertext: seq<byte>,
    ratchetPub: Bytes32,        // DH public key of the ratchet step
    messageIndex: u32,          // index in the sending chain
    opkUsed: Option<Bytes32>,
    ekUsed: Option<Bytes32>,
    createdAt: int)

  /** The routing part of a message (declared in src/user/models.rs). */
  datatype MessageInfo = MessageInfo(uuid: string, sender: string, receiver: string)

  /** `Message::message_info`. */
  function Info(m: Message): (i: MessageInfo)
    ensures i.uuid == m.uuid && i.sender == m.sender && i.receiver == m.receiver
  {
    MessageInfo(m.uuid, m.sender, m.receiver)
  }
}
