/**
 * Live support (backend/app/routers/support.py): the keyword bot, the per-chat socket
 * registry, the message handler's save / bot / escalation steps, and opening a chat.
 * Rows follow backend/app/models/sql/support.py.
 */
module Support {
  import opened Wrappers
  import Text

  // ---------------------------------------------------------------------------
  // get_bot_response
  // ---------------------------------------------------------------------------

  // The replies are written as joins of short parts so that the absence of a character
  // can be checked part by part.
  const PricingParts: seq<string> :=
    ["RiskLock offers", " three tiers: ", "Standard, Elite", ", and Ultra. ", "You can find ",
     "detailed ", "pricing on our ", "/pricing page!"]
  const SetupParts: seq<string> :=
    ["To connect your", " account, go to", " Dashboard > ", "Settings and ", "enter your ",
     "MetaApi ", "credentials. ", "I can guide you", " through it!"]
  const FallbackParts: seq<string> :=
    ["I'm the RiskLoc", "k AI. I can ", "help with ", "pricing, setup,", " or technical ",
     "FAQs. Would you", " like to speak ", "with a human ", "agent?"]

  const PricingReply: string := Text.Join(PricingParts)
  const SetupReply: string := Text.Join(SetupParts)
  const HandOffReply: string := "Understood. I'm " + HandOffPhrase + " to join this chat. One moment..."
  const FallbackReply: string := Text.Join(FallbackParts)

  /** The phrase the handler looks for in a bot reply to hand the chat to a human. */
  const HandOffPhrase: string := "notifying a support specialist"

  predicate AsksPricing(t: string)
  {
    Text.Contains(t, "pricing") || Text.Contains(t, "cost")
  }

  predicate AsksSetup(t: string)
  {
    Text.Contains(t, "setup") || Text.Contains(t, "connect")
  }

  predicate AsksHuman(t: string)
  {
    Text.Contains(t, "human") || Text.Contains(t, "agent") || Text.Contains(t, "help")
  }

  /** The four canned answers of the bot. */
  datatype Reply = Pricing | Setup | HandOff | Fallback

  function ReplyText(r: Reply): string
  {
    match r
    case Pricing => PricingReply
    case Setup => SetupReply
    case HandOff => HandOffReply
    case Fallback => FallbackReply
  }

  /** The keyword bot's choice: the first matching topic wins, on the lower-cased text. */
  function BotReply(text: string): (r: Reply)
    ensures r == Pricing <==> AsksPricing(Text.Lower(text))
    ensures r == Setup <==> !AsksPricing(Text.Lower(text)) && AsksSetup(Text.Lower(text))
    ensures r == HandOff <==>
      !AsksPricing(Text.Lower(text)) && !AsksSetup(Text.Lower(text)) && AsksHuman(Text.Lower(text))
  {
    var t := Text.Lower(text);
    if Text.Contains(t, "pricing") || Text.Contains(t, "cost") then Pricing
    else if Text.Contains(t, "setup") || Text.Contains(t, "connect") then Setup
    else if Text.Contains(t, "human") || Text.Contains(t, "agent") || Text.Contains(t, "help") then HandOff
    else Fallback
  }

  /** `get_bot_response`: the text of the chosen answer; it carries the hand-off phrase exactly for a hand-off. */
  function BotResponse(text: string): (r: string)
    ensures Text.Contains(r, HandOffPhrase) <==> BotReply(text) == HandOff
  {
    HandOffPhraseOnlyInHandOff(BotReply(text));
    ReplyText(BotReply(text))
  }

  /** The bot ignores case: a text and its lower-cased form get the same answer. */
  lemma BotIgnoresCase(text: string)
    ensures BotReply(Text.Lower(text)) == BotReply(text)
  {
    Text.LowerIdempotent(text);
  }

  /** Of the four answers, only the hand-off carries the hand-off phrase. */
  lemma HandOffPhraseOnlyInHandOff(r: Reply)
    ensures Text.Contains(ReplyText(r), HandOffPhrase) <==> r == HandOff
  {
    match r
    case HandOff =>
      Text.ContainsConcat("Understood. I'm ", HandOffPhrase, " to join this chat. One moment...");
    case Pricing => PricingLacksPhrase();
    case Setup => SetupLacksPhrase();
    case Fallback => FallbackLacksPhrase();
  }

  // "notifying ..." has an 'f' at index 4 and a 'y' at index 5; the pricing answer has
  // no lower-case 'y', the setup and fallback answers no lower-case 'f'.

  lemma PricingLacksPhrase()
    ensures !Text.Contains(PricingReply, HandOffPhrase)
  {
    Text.LacksJoin(PricingParts, 'y');
    Text.MissingCharNotContained(PricingReply, HandOffPhrase, 5);
  }

  lemma SetupLacksPhrase()
    ensures !Text.Contains(SetupReply, HandOffPhrase)
  {
    Text.LacksJoin(SetupParts, 'f');
    Text.MissingCharNotContained(SetupReply, HandOffPhrase, 4);
  }

  lemma FallbackLacksPhrase()
    ensures !Text.Contains(FallbackReply, HandOffPhrase)
  {
    Text.LacksJoin(FallbackParts, 'f');
    Text.MissingCharNotContained(FallbackReply, HandOffPhrase, 4);
  }

  // ---------------------------------------------------------------------------
  // ConnectionManager
  // ---------------------------------------------------------------------------

  /** A WebSocket, by identity. */
  type Socket = int

  /** The index of the first occurrence of `x`. */
  function FirstIndex(s: seq<Socket>, x: Socket): (i: nat)
    requires x in s
    ensures i < |s| && s[i] == x
    ensures forall k | 0 <= k < i :: s[k] != x
  {
    if s[0] == x then 0 else 1 + FirstIndex(s[1..], x)
  }

  /** The list with the first occurrence of `x` removed, as `list.remove` does. */
  function RemoveFirst(s: seq<Socket>, x: Socket): (r: seq<Socket>)
    requires x in s
    ensures |r| == |s| - 1
    ensures multiset(r) == multiset(s) - multiset{x}
  {
    var i := FirstIndex(s, x);
    assert s == s[..i] + [s[i]] + s[i + 1..];
    s[..i] + s[i + 1..]
  }

  /** The registry of open sockets per chat id. */
  class ConnectionManager {
    var activeConnections: map<int, seq<Socket>>

    constructor ()
      ensures activeConnections == map[]
    {
      activeConnections := map[];
    }

    /** `connect` (after the socket is accepted): appends, creating the chat's list if absent. */
    method Connect(chatId: int, ws: Socket)
      modifies this
      ensures chatId in activeConnections
      ensures activeConnections[chatId] == (if chatId in old(activeConnections) then old(activeConnections)[chatId] else []) + [ws]
      ensures forall c | c != chatId :: (c in activeConnections <==> c in old(activeConnections))
      ensures forall c | c != chatId && c in activeConnections :: activeConnections[c] == old(activeConnections)[c]
    {
      if chatId !in activeConnections {
        activeConnections := activeConnections[chatId := []];
      }
      activeConnections := activeConnections[chatId := activeConnections[chatId] + [ws]];
    }

    /**
     * `disconnect`: a no-op for an unknown chat; otherwise the first occurrence of the
     * socket is removed, and `ok` is false when it is not in the list (`remove` raises
     * `ValueError`). An emptied list stays registered.
     */
    method Disconnect(chatId: int, ws: Socket) returns (ok: bool)
      modifies this
      ensures ok <==> chatId !in old(activeConnections) || ws in old(activeConnections)[chatId]
      ensures !ok || chatId !in old(activeConnections) ==> activeConnections == old(activeConnections)
      ensures ok && chatId in old(activeConnections) ==>
        activeConnections == old(activeConnections)[chatId := RemoveFirst(old(activeConnections)[chatId], ws)]
    {
      ok := true;
      if chatId in activeConnections {
        if ws !in activeConnections[chatId] {
          return false;
        }
        activeConnections := activeConnections[chatId := RemoveFirst(activeConnections[chatId], ws)];
      }
    }
  }

  /** Connecting and then disconnecting the same socket leaves its chat with the sockets it had. */
  lemma ConnectThenDisconnect(before: seq<Socket>, ws: Socket)
    requires ws !in before
    ensures RemoveFirst(before + [ws], ws) == before
  {
    var s := before + [ws];
    var i := FirstIndex(s, ws);
    assert forall k | 0 <= k < |before| :: s[k] == before[k];
    assert s[..i] == before;
  }

  // ---------------------------------------------------------------------------
  // The message handler of websocket_endpoint
  // ---------------------------------------------------------------------------

  /** A `support_chats` row. */
  datatype Chat = Chat(id: int, userId: Option<int>, guestName: Option<string>, guestEmail: Option<string>,
                       status: string, priority: string)

  /** A `support_messages` row. */
  datatype Message = Message(chatId: int, content: string, senderType: Option<string>, senderId: Option<int>)

  /** An `employee_activities` row written for a staff reply to chat `chatId`. */
  datatype StaffActivity = StaffActivity(employeeId: Option<int>, action: string, moduleName: string, chatId: int)

  /** One parsed client frame; None marks a key the frame does not have. */
  datatype Incoming = Incoming(content: string, senderType: Option<string>, senderId: Option<int>)

  /** One payload broadcast to the chat's sockets. */
  datatype Broadcast = Broadcast(content: string, senderType: Option<string>)

  /** Chat ids are unique and below the next id to be handed out. */
  ghost predicate ChatIdsValid(chats: seq<Chat>, nextChatId: int)
  {
    (forall i, j | 0 <= i < j < |chats| :: chats[i].id != chats[j].id)
    && forall i | 0 <= i < |chats| :: chats[i].id < nextChatId
  }

  /** Changing a chat's status keeps the ids. */
  lemma StatusChangeKeepsIds(chats: seq<Chat>, nextChatId: int, i: nat, status: string)
    requires ChatIdsValid(chats, nextChatId) && i < |chats|
    ensures ChatIdsValid(chats[i := chats[i].(status := status)], nextChatId)
  {
    var c := chats[i := chats[i].(status := status)];
    assert forall k | 0 <= k < |c| :: c[k].id == chats[k].id;
  }

  /** The support tables. */
  class SupportDesk {
    var chats: seq<Chat>
    var messages: seq<Message>
    var activities: seq<StaffActivity>
    var nextChatId: int

    ghost predicate Valid()
      reads this
    {
      ChatIdsValid(chats, nextChatId)
    }

    constructor ()
      ensures Valid() && chats == [] && messages == [] && activities == []
    {
      chats, messages, activities := [], [], [];
      nextChatId := 1;
    }
  }

  function FindChat(chats: seq<Chat>, chatId: int): (r: Option<nat>)
    ensures r.Some? ==> r.value < |chats| && chats[r.value].id == chatId
    ensures r.None? <==> forall k | 0 <= k < |chats| :: chats[k].id != chatId
  {
    if |chats| == 0 then None
    else if chats[|chats| - 1].id == chatId then Some(|chats| - 1)
    else FindChat(chats[..|chats| - 1], chatId)
  }

  /**
   * The sender type of the user message's broadcast as written: `message_data["sender_type"]`,
   * None (a `KeyError`) when the frame has no such key, although the saved row defaulted it.
   */
  function BroadcastSenderAsWritten(m: Incoming): Option<string>
  {
    m.senderType
  }

  /** The sender type as saved, `message_data.get("sender_type", "USER")`. */
  function SavedSender(m: Incoming): string
  {
    if m.senderType.Some? then m.senderType.value else "USER"
  }

  /** The sender type of the broadcast as intended: the same default as the saved row. */
  function BroadcastSender(m: Incoming): (s: string)
    ensures s == SavedSender(m)
    ensures m.senderType.Some? ==> BroadcastSenderAsWritten(m) == Some(s)
  {
    if m.senderType.Some? then m.senderType.value else "USER"
  }

  /**
   * As written, a frame without a sender type is saved as a "USER" message and then the
   * handler raises before broadcasting it; the exception is not `WebSocketDisconnect`, so
   * the socket is never unregistered.
   */
  lemma MissingSenderCrashesAsWritten(content: string)
    ensures var m := Incoming(content, None, None);
      SavedSender(m) == "USER" && BroadcastSenderAsWritten(m).None?
  {
  }

  /** What the bot does with a chat in state `status` on text `content`: its reply, if any, and the new status. */
  function BotStep(status: string, content: string): (r: (Option<string>, string))
    ensures status != "BOT" ==> r == (None, status)
    ensures status == "BOT" ==> r.0 == Some(ReplyText(BotReply(content)))
    ensures status == "BOT" ==> (r.1 == "ACTIVE" <==> BotReply(content) == HandOff)
    ensures status == "BOT" && BotReply(content) != HandOff ==> r.1 == "BOT"
  {
    if status != "BOT" then (None, status)
    else
      var reply := BotResponse(content);
      (Some(reply), if Text.Contains(reply, HandOffPhrase) then "ACTIVE" else status)
  }

  /**
   * The bot's turn on a chat in the bot state: `get_bot_response`, then the check for
   * the hand-off phrase that moves the chat to a human.
   */
  method BotTurn(content: string) returns (reply: string, handOff: bool)
    ensures BotStep("BOT", content) == (Some(reply), if handOff then "ACTIVE" else "BOT")
  {
    reply := BotResponse(content);
    handOff := Text.Contains(reply, HandOffPhrase);
  }

  /** Once a chat has left the bot state, no message gets a bot reply and the status stays. */
  lemma ActiveChatGetsNoBotReply(status: string, content: string)
    requires status == "ACTIVE"
    ensures BotStep(status, content) == (None, "ACTIVE")
  {
  }

  /** A chat the bot hands off cannot be handed off again: the next message finds it active. */
  lemma HandOffHappensOnce(c1: string, c2: string)
    requires BotStep("BOT", c1).1 == "ACTIVE"
    ensures BotStep(BotStep("BOT", c1).1, c2).0.None?
  {
  }

  /**
   * One frame of the endpoint's loop: save the message, log a staff reply, broadcast it,
   * then let the bot answer while the chat is in the bot state. Returns the broadcasts
   * in order; the one-second pause before the bot's broadcast is not modelled.
   */
  method HandleMessage(desk: SupportDesk, chatId: int, m: Incoming) returns (sent: seq<Broadcast>)
    requires desk.Valid()
    modifies desk
    ensures desk.Valid() && desk.nextChatId == old(desk.nextChatId)
    ensures var userMsg := Message(chatId, m.content, Some(SavedSender(m)), m.senderId);
      var found := FindChat(old(desk.chats), chatId);
      var step := if found.Some? then BotStep(old(desk.chats)[found.value].status, m.content) else (None, "");
      && desk.messages == old(desk.messages) + [userMsg]
           + (if step.0.Some? then [Message(chatId, step.0.value, Some("BOT"), None)] else [])
      && sent == [Broadcast(m.content, Some(BroadcastSender(m)))]
           + (if step.0.Some? then [Broadcast(step.0.value, Some("BOT"))] else [])
      && desk.chats == (if step.0.Some? then old(desk.chats)[found.value := old(desk.chats)[found.value].(status := step.1)]
                        else old(desk.chats))
    ensures desk.activities == old(desk.activities)
      + (if m.senderType == Some("STAFF") then [StaffActivity(m.senderId, "REPLIED_TO_CHAT", "SUPPORT", chatId)] else [])
  {
    var sender := if m.senderType.Some? then m.senderType.value else "USER";
    desk.messages := desk.messages + [Message(chatId, m.content, Some(sender), m.senderId)];
    if m.senderType == Some("STAFF") {
      desk.activities := desk.activities + [StaffActivity(m.senderId, "REPLIED_TO_CHAT", "SUPPORT", chatId)];
    }
    sent := [Broadcast(m.content, Some(BroadcastSender(m)))];
    var found := FindChat(desk.chats, chatId);
    if found.Some? && desk.chats[found.value].status == "BOT" {
      var i := found.value;
      var reply, handOff := BotTurn(m.content);
      if handOff {
        StatusChangeKeepsIds(desk.chats, desk.nextChatId, i, "ACTIVE");
        desk.chats := desk.chats[i := desk.chats[i].(status := "ACTIVE")];
      } else {
        assert desk.chats[i].(status := "BOT") == desk.chats[i];
      }
      desk.messages := desk.messages + [Message(chatId, reply, Some("BOT"), None)];
      sent := sent + [Broadcast(reply, Some("BOT"))];
    }
  }

  // ---------------------------------------------------------------------------
  // get_chats / init_chat / get_history
  // ---------------------------------------------------------------------------

  /** `get_chats`: founders and support staff see every chat. */
  function GetChats(role: string, chats: seq<Chat>): (r: Result<seq<Chat>>)
    ensures r.Ok? <==> role == "FOUNDER" || role == "SUPPORT"
    ensures r.Ok? ==> r.value == chats
    ensures r.Err? ==> r.error == HttpError(403, "Not authorized")
  {
    if role !in ["FOUNDER", "SUPPORT"] then Err(HttpError(403, "Not authorized")) else Ok(chats)
  }

  /** `get_history`: the chat's messages, in table order. */
  function History(messages: seq<Message>, chatId: int): (r: seq<Message>)
    ensures forall x :: x in r <==> x in messages && x.chatId == chatId
  {
    if |messages| == 0 then []
    else
      var last := messages[|messages| - 1];
      History(messages[..|messages| - 1], chatId) + (if last.chatId == chatId then [last] else [])
  }

  /** A JSON value of the request body, for its truthiness. */
  datatype Json = JNull | JBool(b: bool) | JInt(i: int) | JStr(s: string)

  /** Python truthiness; a missing key reads as None. */
  predicate Truthy(v: Option<Json>)
  {
    match v
    case None => false
    case Some(JNull) => false
    case Some(JBool(b)) => b
    case Some(JInt(i)) => i != 0
    case Some(JStr(s)) => s != ""
  }

  function Priority(isSubscriber: Option<Json>): (p: string)
    ensures p == "PRIORITY" <==> Truthy(isSubscriber)
    ensures p == "PRIORITY" || p == "STANDARD"
  {
    if Truthy(isSubscriber) then "PRIORITY" else "STANDARD"
  }

  const Greeting: string :=
    "Welcome to RiskLock Priority Support. Our AI is analyzing your account status. A human agent will be notified if your query requires deeper technical analysis."
  const HighVolumeNote: string :=
    "NOTE: Our technical team is currently handling high volume. A Human Agent will join this thread as soon as possible. Please describe your issue in detail."

  /**
   * `init_chat`: a new chat in the bot state with the subscriber's priority, its greeting,
   * and the high-volume note. The note is meant for when no staff member is connected, but
   * the check looks up "role" in each socket's connection scope, which never holds that
   * key, so it finds no staff and the note is always added. Nothing is returned.
   */
  method InitChat(desk: SupportDesk, userId: Option<int>, guestName: Option<string>,
                  guestEmail: Option<string>, isSubscriber: Option<Json>)
    requires desk.Valid()
    modifies desk
    ensures desk.Valid() && desk.activities == old(desk.activities)
    ensures desk.nextChatId == old(desk.nextChatId) + 1
    ensures var chat := Chat(old(desk.nextChatId), userId, guestName, guestEmail, "BOT", Priority(isSubscriber));
      && desk.chats == old(desk.chats) + [chat]
      && desk.messages == old(desk.messages)
           + [Message(chat.id, Greeting, Some("BOT"), None), Message(chat.id, HighVolumeNote, Some("BOT"), None)]
  {
    var chat := Chat(desk.nextChatId, userId, guestName, guestEmail, "BOT",
                     if Truthy(isSubscriber) then "PRIORITY" else "STANDARD");
    desk.chats := desk.chats + [chat];
    desk.nextChatId := desk.nextChatId + 1;
    desk.messages := desk.messages + [Message(chat.id, Greeting, Some("BOT"), None)];
    desk.messages := desk.messages + [Message(chat.id, HighVolumeNote, Some("BOT"), None)];
  }

}
