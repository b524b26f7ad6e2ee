/**
 * The landing page's support chatbot (`ChatbotButton`): a conversation controller that
 * starts a conversation with the remote assistant, exchanges messages with it one at a
 * time, and ends it with or without feedback.
 *
 * Every remote call is an input value (`StartReply`, `MessageReply`); the call to end a
 * conversation is an output value (`EndRequest`), because its reply is never read.
 * Each handler runs to completion; the reply to a sent message arrives as an event of its own.
 */
module Chatbot {
  import opened Options
  import opened Text

  datatype Role = User | Bot

  /** Where an assistant answer came from, as the server tags it. */
  datatype Source = Faq | Gemini | Fallback

  /** One chat bubble (its timestamp is not modelled). */
  datatype Message = Message(id: int, role: Role, content: string, source: Option<Source>, faqId: Option<int>)

  /** The fields a start reply may carry, either inside `data` or at top level. */
  datatype StartFields = StartFields(conversationId: Option<int>, welcomeMessage: Option<string>)

  /** What `POST conversation/start` yields: the request or its JSON parse threw, or a body. */
  datatype StartReply =
    | StartThrew
    | StartReplied(success: bool, data: Option<StartFields>, top: StartFields)

  /** The `data` object of a message reply (`response_delay` is a timing hint, not modelled). */
  datatype MessageData = MessageData(response: string, source: Option<Source>, faqId: Option<int>)

  /** What `POST conversation/message` yields. */
  datatype MessageReply =
    | MessageThrew
    | MessageReplied(success: bool, data: Option<MessageData>)

  /** The optional feedback attached to the end request. */
  datatype Feedback = Feedback(rating: Option<int>, comment: Option<string>, resolved: bool)

  /** The body of `POST conversation/end`. */
  datatype EndRequest = EndRequest(conversationId: int, feedback: Option<Feedback>)

  const DefaultWelcome := "¡Hola! Soy el asistente virtual de INCADEV. ¿En qué puedo ayudarte hoy?"
  const StartRejectedText := "Lo siento, no pude conectarme. Por favor, cierra y vuelve a abrir el chat."
  const StartThrewText := "Lo siento, no pude conectarme al servidor. Por favor, cierra y vuelve a abrir el chat."
  const ReplyFallbackText := "Lo siento, estoy teniendo dificultades técnicas. ¿Podrías reformular tu pregunta?"
  const ReplyErrorText := "Lo siento, ocurrió un error al procesar tu mensaje. Por favor, intenta nuevamente."

  /** The predefined prompts offered before the first exchange. */
  const QuickQuestions: seq<string> :=
    ["¿Cómo me inscribo?", "¿Cuáles son los precios?", "¿Tienen certificación?", "¿Modalidad de clases?"]

  // ---------------------------------------------------------------- reply decoding

  /** `result.data || result`: the `data` wrapper when present, else the top-level fields. */
  function Envelope(reply: StartReply): StartFields
    requires reply.StartReplied?
  {
    if reply.data.Some? then reply.data.value else reply.top
  }

  /** A JavaScript-truthy conversation id: present and not 0. */
  predicate TruthyId(id: Option<int>) {
    id.Some? && id.value != 0
  }

  /** The conversation id that a start reply grants, if it grants one. */
  function GrantedId(reply: StartReply): (id: Option<int>)
    ensures id.Some? ==> id.value != 0 && reply.StartReplied? && reply.success
    ensures reply.StartReplied? && reply.success && reply.data.Some? ==>
      (id.Some? <==> TruthyId(reply.data.value.conversationId))
      && (id.Some? ==> id == reply.data.value.conversationId)
    ensures reply.StartReplied? && reply.success && reply.data.None? ==>
      (id.Some? <==> TruthyId(reply.top.conversationId))
      && (id.Some? ==> id == reply.top.conversationId)
  {
    if reply.StartReplied? && reply.success && TruthyId(Envelope(reply).conversationId) then
      Envelope(reply).conversationId
    else None
  }

  /** The single message a start leaves in the list: the welcome or an error notice. */
  function StartMessage(reply: StartReply): (m: Message)
    ensures m.id == 1 && m.role == Bot && m.source.None? && m.faqId.None?
    ensures m.content != ""
    ensures GrantedId(reply).Some? ==>
      var w := Envelope(reply).welcomeMessage;
      m.content == (if w.Some? && w.value != "" then w.value else DefaultWelcome)
    ensures GrantedId(reply).None? ==>
      m.content == (if reply.StartThrew? then StartThrewText else StartRejectedText)
  {
    var content :=
      if GrantedId(reply).Some? then
        var w := Envelope(reply).welcomeMessage;
        if w.Some? && w.value != "" then w.value else DefaultWelcome
      else if reply.StartThrew? then StartThrewText
      else StartRejectedText;
    Message(1, Bot, content, None, None)
  }

  /** The server answered with usable data: `result.success && result.data`. */
  predicate Served(reply: MessageReply) {
    reply.MessageReplied? && reply.success && reply.data.Some?
  }

  /** The assistant message appended after an exchange, with the id it is given. */
  function BotReply(reply: MessageReply, id: int): (m: Message)
    ensures m.id == id && m.role == Bot
    ensures Served(reply) ==>
      m.content == reply.data.value.response && m.source == reply.data.value.source
      && m.faqId == reply.data.value.faqId
    ensures !Served(reply) ==> m.source == Some(Fallback) && m.faqId.None? && m.content != ""
    ensures reply.MessageThrew? ==> m.content == ReplyErrorText
    ensures reply.MessageReplied? && !Served(reply) ==>
      m.content == (if reply.data.Some? && reply.data.value.response != "" then reply.data.value.response
                    else ReplyFallbackText)
  {
    match reply
    case MessageThrew => Message(id, Bot, ReplyErrorText, Some(Fallback), None)
    case MessageReplied(success, data) =>
      if success && data.Some? then
        Message(id, Bot, data.value.response, data.value.source, data.value.faqId)
      else
        var text := if data.Some? && data.value.response != "" then data.value.response else ReplyFallbackText;
        Message(id, Bot, text, Some(Fallback), None)
  }

  /** The optional feedback of an end request: `rating || undefined`, `comment || undefined`. */
  function FeedbackPayload(sendFeedback: bool, rating: int, comment: string): (f: Option<Feedback>)
    ensures f.Some? <==> sendFeedback
    ensures f.Some? ==> f.value.resolved
    ensures f.Some? ==> (f.value.rating.Some? <==> rating != 0) && (f.value.rating.Some? ==> f.value.rating.value == rating)
    ensures f.Some? ==> (f.value.comment.Some? <==> comment != "") && (f.value.comment.Some? ==> f.value.comment.value == comment)
  {
    if sendFeedback then
      Some(Feedback(if rating != 0 then Some(rating) else None, if comment != "" then Some(comment) else None, true))
    else None
  }

  // ---------------------------------------------------------------- the shape of a history

  /** Message ids are 1, 2, ..., |ms| in order. */
  predicate IdsSequential(ms: seq<Message>) {
    forall i :: 0 <= i < |ms| ==> ms[i].id == i + 1
  }

  /** The first message is the assistant's, then user and assistant take turns. */
  predicate RolesAlternate(ms: seq<Message>) {
    forall i :: 0 <= i < |ms| ==> ms[i].role == (if i % 2 == 0 then Bot else User)
  }

  /** A history made of a start message and whole exchanges. */
  predicate WellFormed(ms: seq<Message>) {
    IdsSequential(ms) && RolesAlternate(ms) && (ms != [] ==> |ms| % 2 == 1)
  }

  /** The two messages one exchange appends: the user's text, then the assistant's answer. */
  function Exchanged(ms: seq<Message>, text: string, reply: MessageReply): seq<Message> {
    ms + [Message(|ms| + 1, User, text, None, None), BotReply(reply, |ms| + 2)]
  }

  /** One exchange on a non-empty well-formed history keeps it well formed and adds one turn. */
  lemma ExchangeKeepsWellFormed(ms: seq<Message>, text: string, reply: MessageReply)
    requires WellFormed(ms) && ms != []
    ensures WellFormed(Exchanged(ms, text, reply))
    ensures |Exchanged(ms, text, reply)| == |ms| + 2
    ensures Exchanged(ms, text, reply)[..|ms|] == ms
  {
    var r := Exchanged(ms, text, reply);
    forall i | 0 <= i < |r| ensures r[i].id == i + 1 && r[i].role == (if i % 2 == 0 then Bot else User) {
      if i < |ms| { assert r[i] == ms[i]; }
    }
  }

  /** In a well-formed history, the user has written exactly half of what follows the start message. */
  function UserTurns(ms: seq<Message>): nat {
    if ms == [] then 0 else UserTurns(ms[..|ms| - 1]) + (if ms[|ms| - 1].role == User then 1 else 0)
  }

  lemma {:induction false} UserTurnsOfExchanged(ms: seq<Message>, text: string, reply: MessageReply)
    ensures UserTurns(Exchanged(ms, text, reply)) == UserTurns(ms) + 1
  {
    var r := Exchanged(ms, text, reply);
    assert r[..|r| - 1][..|ms|] == ms;
    assert r[..|r| - 1] == ms + [r[|ms|]];
  }

  /** Number of messages = 2 x (user messages) + 1 for every non-empty well-formed history. */
  lemma {:induction false} WellFormedCount(ms: seq<Message>)
    requires WellFormed(ms) && ms != []
    ensures |ms| == 2 * UserTurns(ms) + 1
  {
    if |ms| > 1 {
      var p := ms[..|ms| - 2];
      assert WellFormed(p) && p != [] by {
        forall i | 0 <= i < |p| ensures p[i] == ms[i] { }
      }
      WellFormedCount(p);
      assert ms[..|ms| - 1][..|ms| - 2] == p;
      assert ms[|ms| - 2].role == User;
      assert ms[|ms| - 1].role == Bot;
    }
  }

  // ---------------------------------------------------------------- the controller

  class ChatController {
    var isOpen: bool
    /** The input buffer (`message` in the component). */
    var input: string
    var messages: seq<Message>
    var conversationId: Option<int>
    var isLoading: bool
    /** True from a send until its reply (or its failure) has been appended. */
    var isTyping: bool
    /** The id the pending reply will get: `messages.length + 2` as the list stood at the send. */
    var replyId: int
    var showFeedback: bool
    var rating: int
    var feedbackComment: string

    ghost predicate Valid()
      reads this
    {
      && (conversationId.Some? ==> conversationId.value != 0 && messages != [])
      && (messages != [] ==> messages[0].role == Bot)
      && 0 <= rating <= 5
    }

    /** No reply is pending and the history is a start message followed by whole exchanges. */
    ghost predicate Settled()
      reads this
    {
      !isTyping && WellFormed(messages)
    }

    /** A settled history plus the user message whose reply is awaited. */
    ghost predicate AwaitingReply()
      reads this
    {
      && isTyping && messages != [] && |messages| % 2 == 0
      && IdsSequential(messages) && RolesAlternate(messages)
      && messages[|messages| - 1].source.None? && messages[|messages| - 1].faqId.None?
      && replyId == |messages| + 1
    }

    /** The state before the widget is first opened. */
    constructor ()
      ensures Valid() && Settled()
      ensures !isOpen && input == "" && messages == [] && conversationId.None?
      ensures !isLoading && !isTyping && !showFeedback && rating == 0 && feedbackComment == ""
    {
      isOpen, input, messages, conversationId := false, "", [], None;
      isLoading, isTyping, replyId := false, false, 0;
      showFeedback, rating, feedbackComment := false, 0, "";
    }

    /** The quick-question chips: shown while one assistant message stands alone and nothing is
        pending, that is before the first user turn, so a chip click passes the typing gate.
        After a failed start they show too, and the click is refused for want of a conversation. */
    function QuickQuestionsShown(): (shown: bool)
      reads this
      ensures shown ==> |messages| == 1 && !isTyping
      ensures Valid() && shown ==> messages[0].role == Bot && UserTurns(messages) == 0
      ensures Settled() && messages != [] ==> (shown <==> UserTurns(messages) == 0)
    {
      if WellFormed(messages) && messages != [] then
        WellFormedCount(messages);
        |messages| == 1 && !isTyping
      else
        assert |messages| == 1 ==> messages[..0] == [];
        |messages| == 1 && !isTyping
    }

    /** The "Reintentar conexión" button replaces the input when there is no conversation,
        and then nothing can be sent. */
    function RetryOffered(): (offered: bool)
      reads this
      ensures offered ==> !SendEnabled()
      ensures offered <==> conversationId.None? && !isLoading
    {
      conversationId.None? && !isLoading
    }

    /** The send button is enabled; then a send passes the handler's own guard. */
    function SendEnabled(): (enabled: bool)
      reads this
      ensures enabled ==> Trim(input) != "" && conversationId.Some? && !isTyping
      ensures !isLoading ==> (enabled <==> Trim(input) != "" && conversationId.Some? && !isTyping)
    {
      !(isTyping || isLoading || Trim(input) == "" || conversationId.None?)
    }

    /** `startConversation`: asks for a new conversation and seeds the list with one message.
        A reply still pending from an earlier conversation is not touched. */
    method StartConversation(reply: StartReply)
      requires Valid()
      modifies this
      ensures Valid()
      ensures GrantedId(reply).Some? ==> conversationId == GrantedId(reply)
      ensures GrantedId(reply).None? ==> conversationId == old(conversationId)
      ensures messages == [StartMessage(reply)]
      ensures !isLoading
      ensures !isTyping ==> Settled()
      ensures isOpen == old(isOpen) && input == old(input) && isTyping == old(isTyping) && replyId == old(replyId)
      ensures showFeedback == old(showFeedback) && rating == old(rating) && feedbackComment == old(feedbackComment)
    {
      isLoading := true;
      var granted := GrantedId(reply);
      if granted.Some? {
        conversationId := granted;
      }
      messages := [StartMessage(reply)];
      isLoading := false;
    }

    /** The open effect: toggling the floating button; opening with no conversation starts one. */
    method ToggleOpen(reply: StartReply)
      requires Valid()
      modifies this
      ensures Valid()
      ensures isOpen == !old(isOpen)
      ensures isOpen && old(conversationId).None? ==>
        conversationId == GrantedId(reply) && messages == [StartMessage(reply)] && !isLoading
      ensures !(isOpen && old(conversationId).None?) ==>
        conversationId == old(conversationId) && messages == old(messages) && isLoading == old(isLoading)
      ensures input == old(input) && isTyping == old(isTyping) && replyId == old(replyId)
      ensures showFeedback == old(showFeedback) && rating == old(rating) && feedbackComment == old(feedbackComment)
    {
      isOpen := !isOpen;
      if isOpen && conversationId.None? {
        StartConversation(reply);
      }
    }

    /** The header's minimise button hides the window and keeps the conversation. */
    method Minimize()
      modifies this
      ensures !isOpen
      ensures input == old(input) && messages == old(messages) && conversationId == old(conversationId)
      ensures isLoading == old(isLoading) && isTyping == old(isTyping) && replyId == old(replyId)
      ensures showFeedback == old(showFeedback) && rating == old(rating) && feedbackComment == old(feedbackComment)
    {
      isOpen := false;
    }

    /** The retry button, offered after a failed start. */
    method RetryConnection(reply: StartReply)
      requires Valid() && RetryOffered()
      modifies this
      ensures Valid()
      ensures conversationId == GrantedId(reply)
      ensures messages == [StartMessage(reply)] && !isLoading
      ensures isOpen == old(isOpen) && input == old(input) && isTyping == old(isTyping) && replyId == old(replyId)
      ensures showFeedback == old(showFeedback) && rating == old(rating) && feedbackComment == old(feedbackComment)
    {
      StartConversation(reply);
    }

    /** Typing into the input box. */
    method SetInput(text: string)
      modifies this
      ensures input == text
      ensures isOpen == old(isOpen) && messages == old(messages) && conversationId == old(conversationId)
      ensures isLoading == old(isLoading) && isTyping == old(isTyping) && replyId == old(replyId)
      ensures showFeedback == old(showFeedback) && rating == old(rating) && feedbackComment == old(feedbackComment)
    {
      input := text;
    }

    /** The first half of an exchange: the user's message goes in at once, the typing flag is
        raised and the reply's id is fixed from the list as it stands. */
    method BeginExchange(text: string)
      requires Valid() && conversationId.Some? && !isTyping
      modifies this
      ensures Valid()
      ensures messages == old(messages) + [Message(|old(messages)| + 1, User, text, None, None)]
      ensures isTyping && replyId == |old(messages)| + 2
      ensures old(Settled()) ==> AwaitingReply()
      ensures isOpen == old(isOpen) && input == old(input) && conversationId == old(conversationId)
      ensures isLoading == old(isLoading)
      ensures showFeedback == old(showFeedback) && rating == old(rating) && feedbackComment == old(feedbackComment)
    {
      var n := |messages|;
      messages := messages + [Message(n + 1, User, text, None, None)];
      isTyping, replyId := true, n + 2;
      if old(Settled()) {
        assert forall i :: 0 <= i < n ==> messages[i] == old(messages)[i];
      }
    }

    /** `handleSendMessage`: nothing happens for blank input, without a conversation, or while
        a reply is pending; otherwise the trimmed text is sent and the input is cleared. */
    method HandleSendMessage()
      requires Valid()
      modifies this
      ensures Valid()
      ensures Trim(old(input)) == "" || old(conversationId).None? || old(isTyping) ==>
        messages == old(messages) && input == old(input) && isTyping == old(isTyping) && replyId == old(replyId)
      ensures !(Trim(old(input)) == "" || old(conversationId).None? || old(isTyping)) ==>
        && messages == old(messages) + [Message(|old(messages)| + 1, User, Trim(old(input)), None, None)]
        && input == "" && isTyping && replyId == |old(messages)| + 2
        && (old(Settled()) ==> AwaitingReply())
      ensures isOpen == old(isOpen) && conversationId == old(conversationId) && isLoading == old(isLoading)
      ensures showFeedback == old(showFeedback) && rating == old(rating) && feedbackComment == old(feedbackComment)
    {
      var text := Trim(input);
      if text == "" || conversationId.None? || isTyping {
        return;
      }
      BeginExchange(text);
      input := "";
    }

    /** `handleQuickQuestion` for chip `i`: the same send for a predefined prompt, with no
        blank check and the input buffer left as it is. */
    method HandleQuickQuestion(i: nat)
      requires Valid() && i < |QuickQuestions|
      modifies this
      ensures Valid()
      ensures old(conversationId).None? || old(isTyping) ==>
        messages == old(messages) && isTyping == old(isTyping) && replyId == old(replyId)
      ensures !(old(conversationId).None? || old(isTyping)) ==>
        && messages == old(messages) + [Message(|old(messages)| + 1, User, Trim(QuickQuestions[i]), None, None)]
        && isTyping && replyId == |old(messages)| + 2 && !QuickQuestionsShown()
        && (old(Settled()) ==> AwaitingReply())
      ensures isOpen == old(isOpen) && input == old(input) && conversationId == old(conversationId)
      ensures isLoading == old(isLoading)
      ensures showFeedback == old(showFeedback) && rating == old(rating) && feedbackComment == old(feedbackComment)
    {
      if conversationId.None? || isTyping {
        return;
      }
      BeginExchange(Trim(QuickQuestions[i]));
    }

    /** The pending reply arrives (or its request fails): the assistant's message is appended
        to the list as it now stands, with the id fixed at the send, and the flag is lowered.
        After a plain send this completes the exchange and settles the history again. */
    method ReceiveReply(reply: MessageReply)
      requires Valid() && isTyping
      modifies this
      ensures Valid()
      ensures messages == old(messages) + [BotReply(reply, old(replyId))] && !isTyping
      ensures old(AwaitingReply()) ==>
        Settled() && messages == Exchanged(old(messages)[..|old(messages)| - 1], old(messages)[|old(messages)| - 1].content, reply)
      ensures isOpen == old(isOpen) && input == old(input) && conversationId == old(conversationId)
      ensures isLoading == old(isLoading) && replyId == old(replyId)
      ensures showFeedback == old(showFeedback) && rating == old(rating) && feedbackComment == old(feedbackComment)
    {
      if AwaitingReply() {
        var n := |messages|;
        var p := messages[..n - 1];
        var text := messages[n - 1].content;
        assert messages == p + [Message(|p| + 1, User, text, None, None)];
        assert WellFormed(p) && p != [] by {
          forall k | 0 <= k < |p| ensures p[k] == messages[k] { }
        }
        ExchangeKeepsWellFormed(p, text, reply);
      }
      messages := messages + [BotReply(reply, replyId)];
      isTyping := false;
    }

    /** Clicking one of the rating stars. */
    method SetRating(star: int)
      requires Valid() && 1 <= star <= 5
      modifies this
      ensures Valid() && rating == star
      ensures isOpen == old(isOpen) && input == old(input) && messages == old(messages)
      ensures conversationId == old(conversationId) && isLoading == old(isLoading)
      ensures isTyping == old(isTyping) && replyId == old(replyId)
      ensures showFeedback == old(showFeedback) && feedbackComment == old(feedbackComment)
    {
      rating := star;
    }

    /** Typing into the feedback comment box. */
    method SetComment(text: string)
      requires Valid()
      modifies this
      ensures Valid() && feedbackComment == text
      ensures isOpen == old(isOpen) && input == old(input) && messages == old(messages)
      ensures conversationId == old(conversationId) && isLoading == old(isLoading)
      ensures isTyping == old(isTyping) && replyId == old(replyId)
      ensures showFeedback == old(showFeedback) && rating == old(rating)
    {
      feedbackComment := text;
    }

    /** What `endConversation` does to the state and what it transmits. A pending reply is
        left pending. */
    twostate predicate Ended(sendFeedback: bool, new request: Option<EndRequest>)
      reads this
    {
      && isTyping == old(isTyping) && replyId == old(replyId)
      && if old(conversationId).None? then
        request.None? && messages == old(messages) && conversationId.None?
        && showFeedback == old(showFeedback) && rating == old(rating) && feedbackComment == old(feedbackComment)
      else
        request == Some(EndRequest(old(conversationId).value,
                                   FeedbackPayload(sendFeedback, old(rating), old(feedbackComment))))
        && conversationId.None? && messages == [] && !showFeedback && rating == 0 && feedbackComment == ""
    }

    /** `endConversation`: without a conversation it does nothing; otherwise it sends the end
        request and then clears the conversation whether or not the request fails. */
    method EndConversation(sendFeedback: bool) returns (request: Option<EndRequest>)
      requires Valid()
      modifies this
      ensures Valid()
      ensures Ended(sendFeedback, request)
      ensures old(conversationId).Some? && !isTyping ==> Settled()
      ensures isOpen == old(isOpen) && input == old(input) && isLoading == old(isLoading)
    {
      if conversationId.None? {
        return None;
      }
      request := Some(EndRequest(conversationId.value, FeedbackPayload(sendFeedback, rating, feedbackComment)));
      conversationId, messages := None, [];
      showFeedback, rating, feedbackComment := false, 0, "";
    }

    /** `handleClose`: after a real exchange it asks for feedback; otherwise it closes and ends
        the conversation without feedback. */
    method HandleClose() returns (request: Option<EndRequest>)
      requires Valid()
      modifies this
      ensures Valid()
      ensures |old(messages)| > 1 ==>
        showFeedback && request.None? && isOpen == old(isOpen)
        && messages == old(messages) && conversationId == old(conversationId)
        && isTyping == old(isTyping) && replyId == old(replyId)
        && rating == old(rating) && feedbackComment == old(feedbackComment)
      ensures |old(messages)| <= 1 ==> !isOpen && Ended(false, request)
      ensures input == old(input) && isLoading == old(isLoading)
    {
      if |messages| > 1 {
        showFeedback := true;
        return None;
      }
      isOpen := false;
      request := EndConversation(false);
    }

    /** "Omitir" in the feedback prompt: close and end without feedback. */
    method HandleCloseWithoutFeedback() returns (request: Option<EndRequest>)
      requires Valid()
      modifies this
      ensures Valid()
      ensures !isOpen && Ended(false, request)
      ensures input == old(input) && isLoading == old(isLoading)
    {
      isOpen := false;
      request := EndConversation(false);
    }

    /** "Enviar" in the feedback prompt: close and end with the rating and comment. */
    method HandleSubmitFeedback() returns (request: Option<EndRequest>)
      requires Valid()
      modifies this
      ensures Valid()
      ensures !isOpen && Ended(true, request)
      ensures input == old(input) && isLoading == old(isLoading)
    {
      isOpen := false;
      request := EndConversation(true);
    }
  }

  /** The worked examples: start with id 42, one exchange, a send refused while a reply is
      pending, a failed reply, then end with feedback. */
  method ConversationScenario()
  {
    var chat := FirstExchange();
    TrimIdentity("¿Horarios?");
    chat.HandleSendMessage();
    chat.ReceiveReply(MessageThrew);
    assert |chat.messages| == 5 && chat.messages[4].source == Some(Fallback);

    var r := chat.HandleClose();
    assert chat.showFeedback && r.None?;
    chat.SetRating(4);
    r := chat.HandleSubmitFeedback();
    assert r == Some(EndRequest(42, Some(Feedback(Some(4), None, true))));
    assert chat.messages == [] && chat.conversationId.None? && chat.rating == 0;
  }

  /** The first question of a conversation: a second send while the reply is pending is
      refused and keeps its text in the input box. */
  method FirstExchange() returns (chat: ChatController)
    ensures fresh(chat) && chat.Valid() && chat.Settled()
    ensures chat.conversationId == Some(42) && chat.input == "¿Horarios?" && |chat.messages| == 3
    ensures chat.isOpen && !chat.showFeedback && chat.rating == 0 && chat.feedbackComment == ""
  {
    chat := new ChatController();
    chat.ToggleOpen(StartReplied(true, Some(StartFields(Some(42), Some("Hi"))), StartFields(None, None)));
    assert chat.conversationId == Some(42);
    assert chat.messages == [Message(1, Bot, "Hi", None, None)];
    assert chat.QuickQuestionsShown();

    chat.SetInput("¿Precios?");
    TrimIdentity("¿Precios?");
    chat.HandleSendMessage();
    assert chat.messages[1] == Message(2, User, "¿Precios?", None, None);
    assert chat.input == "" && chat.isTyping && !chat.SendEnabled();

    chat.SetInput("¿Horarios?");
    chat.HandleSendMessage();
    assert |chat.messages| == 2 && chat.input == "¿Horarios?";

    chat.ReceiveReply(MessageReplied(true, Some(MessageData("S/.500", Some(Faq), None))));
    assert chat.messages[2] == Message(3, Bot, "S/.500", Some(Faq), None);
  }

  /** Opening when the start request throws leaves an error notice and the retry button. */
  method FailedStartScenario()
  {
    var chat := new ChatController();
    chat.ToggleOpen(StartThrew);
    assert chat.isOpen && chat.conversationId.None?;
    assert chat.messages == [Message(1, Bot, StartThrewText, None, None)];
    assert chat.RetryOffered() && chat.QuickQuestionsShown();
    var before := chat.messages;
    chat.HandleQuickQuestion(0);
    assert chat.messages == before && !chat.isTyping;
  }

  /** Closing the chat while a reply is pending ends the conversation and clears the history,
      but the typing flag stays raised and the reply's id stays fixed. */
  method EndMidExchange() returns (chat: ChatController)
    ensures fresh(chat) && chat.Valid()
    ensures chat.isTyping && chat.replyId == 3 && chat.messages == [] && chat.conversationId.None?
    ensures !chat.isOpen && !chat.isLoading
  {
    chat := new ChatController();
    chat.ToggleOpen(StartReplied(true, None, StartFields(Some(7), Some("A"))));
    chat.HandleQuickQuestion(0);
    assert chat.isTyping && chat.replyId == 3;
    var r := chat.HandleClose();
    r := chat.HandleCloseWithoutFeedback();
    assert r == Some(EndRequest(7, None));
  }

  /** A reply that arrives after its conversation has ended lands in the new history with the
      id fixed at the send, and until then the new conversation cannot send. */
  method LateReplyScenario()
  {
    var chat := EndMidExchange();
    chat.ToggleOpen(StartReplied(true, None, StartFields(Some(8), Some("B"))));
    assert chat.conversationId == Some(8) && |chat.messages| == 1;
    chat.HandleQuickQuestion(1);
    assert |chat.messages| == 1;

    assert chat.replyId == 3 && !chat.AwaitingReply();
    var before := chat.messages;
    chat.ReceiveReply(MessageThrew);
    assert chat.messages == before + [BotReply(MessageThrew, 3)];
  }
}
