/**
 * The message composer of src/components/WhatsAppInterface.tsx: the request
 * body it posts to the Graph API for each message type, and the send
 * handler that guards on the required fields and, after a successful send,
 * appends the message to the conversation and clears the inputs.
 */
module WhatsAppInterface {
  import opened Wrappers
  import Json

  datatype MessageType =
    | Text | Contact | Audio | Document | Location | Image | Sticker | Contacts | Interactive | Template

  /** The `type` string of each message type. */
  function TypeName(t: MessageType): (name: string)
    ensures name != ""
  {
    match t
    case Text => "text"
    case Contact => "contact"
    case Audio => "audio"
    case Document => "document"
    case Location => "location"
    case Image => "image"
    case Sticker => "sticker"
    case Contacts => "contacts"
    case Interactive => "interactive"
    case Template => "template"
  }

  /** Distinct message types have distinct `type` strings. */
  lemma TypeNameInjective(s: MessageType, t: MessageType)
    requires TypeName(s) == TypeName(t)
    ensures s == t
  {
  }

  /** A message being composed; the coordinates of a location message are not modelled. */
  datatype Message = Message(
    kind: MessageType,
    content: string,
    phoneNumber: string,
    link: Option<string>,
    messageId: Option<string>)

  const BaseKeys: set<string> := {"messaging_product", "recipient_type", "to", "type"}

  /** The fields every request body carries. */
  function BaseBody(m: Message): map<string, Json.Value> {
    map[
      "messaging_product" := Json.Str("whatsapp"),
      "recipient_type" := Json.Str("individual"),
      "to" := Json.Str(m.phoneNumber),
      "type" := Json.Str(TypeName(m.kind))
    ]
  }

  /** One quick-reply button of an interactive message. */
  function ReplyButton(id: string, title: string): Json.Value {
    Json.Obj(map[
      "type" := Json.Str("reply"),
      "reply" := Json.Obj(map["id" := Json.Str(id), "title" := Json.Str(title)])
    ])
  }

  /**
   * The key under which a body carries its type-specific part, when it has
   * one: the type's own name for text, image and interactive messages.
   */
  predicate HasTypedPart(t: MessageType) {
    t == Text || t == Image || t == Interactive
  }

  /**
   * `constructRequestBody` for every type except location. An absent link
   * is left out of the image part, as `JSON.stringify` drops an undefined
   * field.
   */
  function ConstructRequestBody(m: Message): (body: map<string, Json.Value>)
    requires m.kind != Location
    ensures BaseKeys <= body.Keys
    ensures body["messaging_product"] == Json.Str("whatsapp")
    ensures body["recipient_type"] == Json.Str("individual")
    ensures body["to"] == Json.Str(m.phoneNumber)
    ensures body["type"] == Json.Str(TypeName(m.kind))
    ensures m.kind == Text ==>
      && body.Keys == BaseKeys + {"text"}
      && body["text"] == Json.Obj(map[
           "preview_url" := Json.Bool(Truthy(m.link)),
           "body" := Json.Str(m.content)])
    ensures m.kind == Image ==>
      && body.Keys == BaseKeys + {"image"} + (if Truthy(m.messageId) then {"context"} else {})
      && body["image"] == Json.Obj(if m.link.Some? then map["link" := Json.Str(m.link.value)] else map[])
      && (Truthy(m.messageId) ==> body["context"] == Json.Obj(map["message_id" := Json.Str(m.messageId.value)]))
    ensures m.kind == Interactive ==>
      && body.Keys == BaseKeys + {"interactive"}
      && body["interactive"].Obj?
      && body["interactive"].fields.Keys == {"type", "body", "action"}
      && body["interactive"].fields["type"] == Json.Str("button")
      && body["interactive"].fields["body"] == Json.Obj(map["text" := Json.Str(m.content)])
      && body["interactive"].fields["action"] == Json.Obj(map["buttons" := Json.Arr([
           ReplyButton("button_1", "Button 1"), ReplyButton("button_2", "Button 2")])])
    ensures !HasTypedPart(m.kind) ==> body == BaseBody(m)
  {
    var base := BaseBody(m);
    match m.kind
    case Text =>
      base["text" := Json.Obj(map[
        "preview_url" := Json.Bool(Truthy(m.link)),
        "body" := Json.Str(m.content)])]
    case Image =>
      var imageBody := base["image" := Json.Obj(if m.link.Some? then map["link" := Json.Str(m.link.value)] else map[])];
      if Truthy(m.messageId) then
        imageBody["context" := Json.Obj(map["message_id" := Json.Str(m.messageId.value)])]
      else imageBody
    case Interactive =>
      base["interactive" := Json.Obj(map[
        "type" := Json.Str("button"),
        "body" := Json.Obj(map["text" := Json.Str(m.content)]),
        "action" := Json.Obj(map["buttons" := Json.Arr([
          ReplyButton("button_1", "Button 1"), ReplyButton("button_2", "Button 2")])])])]
    case _ => base
  }

  /**
   * A body names its own type-specific part: the string under `type` is a
   * key of the body exactly for text, image and interactive messages.
   */
  lemma TypedPartUnderTypeName(m: Message)
    requires m.kind != Location
    ensures ConstructRequestBody(m)["type"].Str?
    ensures ConstructRequestBody(m)["type"].str in ConstructRequestBody(m).Keys <==> HasTypedPart(m.kind)
  {
    if !HasTypedPart(m.kind) {
      assert TypeName(m.kind) !in BaseKeys;
    }
  }

  /** The body depends on the content only through the text and interactive parts. */
  lemma ContentOnlyInTextParts(m: Message, content: string)
    requires m.kind != Location && m.kind != Text && m.kind != Interactive
    ensures ConstructRequestBody(m.(content := content)) == ConstructRequestBody(m)
  {
  }

  /** What the Graph API call of `handleSend` did. */
  datatype SendOutcome = Accepted | Rejected | Failed

  class Composer {
    var message: Message
    var link: string
    var messageId: string
    var messages: seq<Message>

    /** The initial state: an empty text message, empty inputs, no messages. */
    constructor ()
      ensures message == Message(Text, "", "", None, None)
      ensures link == "" && messageId == "" && messages == []
    {
      message := Message(Text, "", "", None, None);
      link := "";
      messageId := "";
      messages := [];
    }

    /** The message can be sent: it has a phone number and a content. */
    predicate Ready()
      reads this
    {
      message.phoneNumber != "" && message.content != ""
    }

    /**
     * `handleSend`. Without a phone number or a content nothing is sent and
     * nothing changes. Otherwise the body of the current message is sent;
     * when the API accepts it, the message joins the conversation, its
     * content is cleared and so are the link and message-id inputs (the
     * message keeps its own link and message id). A rejected or failed send
     * changes nothing.
     */
    method HandleSend(outcome: SendOutcome) returns (sent: Option<map<string, Json.Value>>)
      requires Ready() ==> message.kind != Location
      modifies this
      ensures !old(Ready()) ==> sent.None? && unchanged(this)
      ensures old(Ready()) ==> sent == Some(ConstructRequestBody(old(message)))
      ensures old(Ready()) && outcome == Accepted ==>
        && messages == old(messages) + [old(message)]
        && message == old(message).(content := "")
        && link == "" && messageId == ""
      ensures old(Ready()) && outcome != Accepted ==> unchanged(this)
    {
      if message.phoneNumber == "" || message.content == "" {
        return None;
      }
      sent := Some(ConstructRequestBody(message));
      if outcome == Accepted {
        messages := messages + [message];
        message := message.(content := "");
        link := "";
        messageId := "";
      }
    }
  }
}
