/**
 * The in-memory message store of src/lib/messageStore.ts: messages are
 * appended in arrival order and queried by the phone number of either party.
 */
module MessageStore {
  import opened Wrappers

  datatype Status = Sent | Delivered | Read | Received

  datatype StoredMessage = StoredMessage(
    content: string,
    isSent: bool,
    timestamp: string,
    status: Status,
    from: string,
    to: string,
    mediaType: Option<string>,
    mediaUrl: Option<string>)

  /** The message was sent by or to the given phone number. */
  predicate Involves(m: StoredMessage, phone: string) {
    m.from == phone || m.to == phone
  }

  /** `messages.filter((m) => m.from === phone || m.to === phone)`. */
  function Conversation(messages: seq<StoredMessage>, phone: string): (r: seq<StoredMessage>)
    ensures |r| <= |messages|
    ensures forall m :: m in r <==> m in messages && Involves(m, phone)
  {
    if messages == [] then []
    else (if Involves(messages[0], phone) then [messages[0]] else []) + Conversation(messages[1..], phone)
  }

  /** The query keeps arrival order: a later message comes after the earlier ones. */
  lemma {:induction false} ConversationAppend(messages: seq<StoredMessage>, m: StoredMessage, phone: string)
    ensures Conversation(messages + [m], phone) ==
      Conversation(messages, phone) + (if Involves(m, phone) then [m] else [])
  {
    if messages == [] {
      assert messages + [m] == [m];
      assert [m][1..] == [];
    } else {
      assert (messages + [m])[1..] == messages[1..] + [m];
      ConversationAppend(messages[1..], m, phone);
    }
  }

  class MessageStore {
    var messages: seq<StoredMessage>

    constructor ()
      ensures messages == []
    {
      messages := [];
    }

    /** `addMessage`: the message goes at the end and every earlier one stays. */
    method AddMessage(message: StoredMessage)
      modifies this
      ensures messages == old(messages) + [message]
      ensures |messages| == |old(messages)| + 1
      ensures GetMessages(message.from) == old(GetMessages(message.from)) + [message]
      ensures GetMessages(message.to) == old(GetMessages(message.to)) + [message]
      ensures forall p :: !Involves(message, p) ==> GetMessages(p) == old(GetMessages(p))
    {
      ConversationAppend(messages, message, message.from);
      ConversationAppend(messages, message, message.to);
      forall p | !Involves(message, p) ensures Conversation(messages + [message], p) == Conversation(messages, p) {
        ConversationAppend(messages, message, p);
      }
      messages := messages + [message];
    }

    /**
     * `getMessages`: exactly the stored messages sent by or to the phone
     * number, in the order they were added. Being a function, it changes
     * nothing.
     */
    function GetMessages(phone: string): (r: seq<StoredMessage>)
      reads this
      ensures forall m :: m in r <==> m in messages && Involves(m, phone)
      ensures |r| <= |messages|
    {
      Conversation(messages, phone)
    }
  }
}
