/**
 * The chat transcript's value types: who sent a message, which follow-up
 * options a message carries, and the message record itself with its two
 * initialisers.
 */
module ChatModel {
  import opened Wrappers
  import Text

  datatype SenderRole = User | Assistant

  /** The tag an assistant message carries to say which options the chat screen offers under it. */
  datatype MessageType =
    // main flows
    | GoingToShop | GoingToBed | GoingOut | DialNumber | Medicine
    // helpers
    | HomeCheck | NotificationOptions | ShowOutingPlanOptions | ShowInstructions

  const MainFlows: set<MessageType> := {GoingToShop, GoingToBed, GoingOut, DialNumber, Medicine}
  const Helpers: set<MessageType> := {HomeCheck, NotificationOptions, ShowOutingPlanOptions, ShowInstructions}

  /** The two groups split the nine tags: five flows, four helpers, no tag in both and none left over. */
  lemma MessageTypesPartitioned(t: MessageType)
    ensures |MainFlows| == 5 && |Helpers| == 4 && MainFlows !! Helpers
    ensures t in MainFlows + Helpers
  {
    assert MainFlows !! Helpers;
  }

  lemma SenderRolesAreTwo(r: SenderRole)
    ensures r == User || r == Assistant
    ensures User != Assistant
  {
  }

  /**
   * A transcript entry. `id`, `role` and `msgType` are fixed when it is
   * created; `content` and `messageCompleted` are the parts the typing
   * animation later rewrites.
   */
  datatype ChatMessage = ChatMessage(
    id: string,
    content: string,
    role: SenderRole,
    msgType: Option<MessageType>,
    messageCompleted: bool)

  /** `init(id:content:role:type:)`: the caller's id is kept as given; `type` defaults to none. */
  function WithId(id: string, content: string, role: SenderRole, msgType: Option<MessageType> := None): (m: ChatMessage)
    ensures m.id == id && m.content == content && m.role == role && m.msgType == msgType
    ensures !m.messageCompleted
  {
    ChatMessage(id, content, role, msgType, false)
  }

  /** The identifier handed out as the `serial`-th fresh id (the model's stand-in for `UUID().uuidString`). */
  function SerialId(serial: nat): string
  {
    Text.NatToString(serial)
  }

  /**
   * `init(content:role:type:)`: draws a fresh identifier. The generator is
   * modelled as a serial number that its owner never hands out twice.
   */
  function Fresh(serial: nat, content: string, role: SenderRole, msgType: Option<MessageType> := None): (m: ChatMessage)
    ensures m == WithId(SerialId(serial), content, role, msgType)
  {
    ChatMessage(SerialId(serial), content, role, msgType, false)
  }

  /** Different serials give different identifiers, whatever the messages say. */
  lemma FreshIdsDiffer(i: nat, j: nat, c: string, d: string, r: SenderRole, q: SenderRole, t: Option<MessageType>, u: Option<MessageType>)
    requires i != j
    ensures Fresh(i, c, r, t).id != Fresh(j, d, q, u).id
  {
    Text.NatToStringInjective(i, j);
  }

  /** Rewriting the visible text (what the typing animation does) keeps everything fixed at creation. */
  function Reveal(m: ChatMessage, text: string): (r: ChatMessage)
    ensures r.id == m.id && r.role == m.role && r.msgType == m.msgType
    ensures r.messageCompleted == m.messageCompleted
    ensures r.content == text
  {
    m.(content := text)
  }

  /** Marking the message as fully shown keeps everything else. */
  function MarkCompleted(m: ChatMessage): (r: ChatMessage)
    ensures r.id == m.id && r.role == m.role && r.msgType == m.msgType && r.content == m.content
    ensures r.messageCompleted
  {
    m.(messageCompleted := true)
  }
}
