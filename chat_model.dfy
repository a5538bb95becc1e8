/** The per-user chat log document (backend/models/ChatLog.js). */
module ChatModel {
  import opened Ids

  datatype Sender = User | Bot

  /**
   * One message. `text` is required (a string field that the schema rejects
   * when empty), `options` lists quick replies and `timestamp` defaults to the
   * instant the message is created.
   */
  datatype Message = Message(sender: Sender, text: string, options: seq<string>, timestamp: int)

  /**
   * A user's log. `context` and `metadata` are declared with defaults ('IDLE'
   * and an empty object) but no controller reads or writes them.
   */
  datatype ChatLog = ChatLog(
    user: UserId,
    messages: seq<Message>,
    context: string,
    metadata: map<string, string>)

  const DefaultContext: string := "IDLE"

  /** The schema's required-field check on a message. */
  predicate ValidMessage(m: Message) {
    m.text != []
  }

  /** A log the database accepts, still carrying the declared defaults. */
  predicate ValidLog(log: ChatLog) {
    && (forall i :: 0 <= i < |log.messages| ==> ValidMessage(log.messages[i]))
    && log.context == DefaultContext
    && log.metadata == map[]
  }

  /** The log created for a user's first message. */
  function NewChatLog(user: UserId): (log: ChatLog)
    ensures ValidLog(log) && log.user == user && log.messages == []
  {
    ChatLog(user, [], DefaultContext, map[])
  }
}
