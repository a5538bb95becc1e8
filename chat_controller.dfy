/**
 * The chat controller (backend/controllers/chatController.js): one log per
 * user, found or created on each message, to which the user's message and a
 * keyword-chosen bot reply are appended.
 */
module ChatController {
  import opened Wrappers
  import opened Ids
  import opened Text
  import opened ChatModel
  import opened Database

  const DefaultReply: string := "I'm a simple bot. I can help you with product availability."
  const PriceReply: string := "Please check the product page for the latest prices."
  const GreetingReply: string := "Namaste! How can I help you today?"

  /** The reply to a message: the price keyword first, then the greeting, else the default. */
  function BotReply(message: string): (r: string)
    ensures r in {PriceReply, GreetingReply, DefaultReply}
    ensures r == PriceReply <==> Contains(ToLower(message), "price")
  {
    var lowered := ToLower(message);
    if Contains(lowered, "price") then PriceReply
    else if Contains(lowered, "hello") then GreetingReply
    else DefaultReply
  }

  /** A message mentioning both keywords gets the price reply. */
  lemma PriceWinsOverHello(message: string)
    requires Contains(ToLower(message), "price") && Contains(ToLower(message), "hello")
    ensures BotReply(message) == PriceReply
  {
  }

  /** The greeting is the reply exactly when the message greets without asking a price. */
  lemma GreetingIffHelloWithoutPrice(message: string)
    ensures BotReply(message) == GreetingReply <==>
      !Contains(ToLower(message), "price") && Contains(ToLower(message), "hello")
  {
  }

  /** The reply ignores letter case: messages that agree once lower-cased get the same reply. */
  lemma ReplyIgnoresCase(a: string, b: string)
    requires ToLower(a) == ToLower(b)
    ensures BotReply(a) == BotReply(b)
  {
  }

  /** Replying to the lower-cased message gives the same reply. */
  lemma {:induction false} ReplyToLoweredMessage(message: string)
    ensures BotReply(ToLower(message)) == BotReply(message)
  {
    ToLowerIdempotent(message);
  }

  /** The reply is always one of the three texts and never empty, so the schema accepts it. */
  lemma ReplyIsValidText(message: string)
    ensures BotReply(message) in {PriceReply, GreetingReply, DefaultReply}
    ensures BotReply(message) != []
  {
  }

  /** A concrete mixed-case message that asks a price and greets. */
  lemma MixedCaseExample()
    ensures BotReply("Hello, what is the PRICE of milk?") == PriceReply
  {
    var lowered := ToLower("Hello, what is the PRICE of milk?");
    assert lowered[19..24] == "price";
    assert OccursAt(lowered, "price", 19);
  }

  /** Every stored log belongs to the user it is filed under and is accepted by the schema. */
  predicate LogsValid(logs: map<UserId, ChatLog>) {
    forall u | u in logs :: logs[u].user == u && ValidLog(logs[u])
  }

  /** The messages a user's history shows: the stored ones, or none when there is no log. */
  function HistoryOf(logs: map<UserId, ChatLog>, user: UserId): seq<Message> {
    if user in logs then logs[user].messages else []
  }

  /** The reply body of a chat call. */
  datatype ChatReply = ChatReply(response: string, history: seq<Message>)

  /**
   * `chatWithAI`. A missing message makes lower-casing throw, and an empty one
   * fails the schema's required check at save: both give 500 and nothing is
   * stored. Otherwise the caller's log (created if absent) gains the user's
   * message and then the bot's reply, both stamped `now`, and is stored.
   */
  method ChatWithAI(db: Db, caller: Caller, message: Option<string>, now: int) returns (res: Response<ChatReply>)
    requires LogsValid(db.chatLogs)
    modifies db`chatLogs
    ensures LogsValid(db.chatLogs)
    ensures (message.None? || message == Some("")) <==> res == Failure(500)
    ensures res.Success? <==> message.Some? && message.value != []
    ensures res.Failure? ==> db.chatLogs == old(db.chatLogs)
    ensures res.Success? ==>
      && res.status == 200
      && res.value.response == BotReply(message.value)
      && res.value.history == HistoryOf(db.chatLogs, caller.id)
      && res.value.history == HistoryOf(old(db.chatLogs), caller.id)
           + [Message(User, message.value, [], now), Message(Bot, res.value.response, [], now)]
      && res.value.history[|res.value.history| - 1].text == res.value.response
      && db.chatLogs.Keys == old(db.chatLogs).Keys + {caller.id}
      && forall u | u in old(db.chatLogs) && u != caller.id :: db.chatLogs[u] == old(db.chatLogs)[u]
  {
    var log: ChatLog;
    if caller.id in db.chatLogs {
      log := db.chatLogs[caller.id];
    } else {
      log := NewChatLog(caller.id);
    }
    if message.None? {
      return Failure(500);
    }
    var text := message.value;
    log := log.(messages := log.messages + [Message(User, text, [], now)]);

    var reply := DefaultReply;
    var lowered := ToLower(text);
    if Contains(lowered, "price") {
      reply := PriceReply;
    } else if Contains(lowered, "hello") {
      reply := GreetingReply;
    }

    log := log.(messages := log.messages + [Message(Bot, reply, [], now)]);
    if text == [] {
      return Failure(500);
    }
    db.chatLogs := db.chatLogs[caller.id := log];
    res := Success(200, ChatReply(reply, log.messages));
  }

  /** `getChatHistory`: the caller's stored messages, or none; no log is created. */
  method GetChatHistory(db: Db, caller: Caller) returns (r: seq<Message>)
    ensures r == HistoryOf(db.chatLogs, caller.id)
    ensures caller.id !in db.chatLogs ==> r == []
  {
    if caller.id in db.chatLogs {
      r := db.chatLogs[caller.id].messages;
    } else {
      r := [];
    }
  }
}
