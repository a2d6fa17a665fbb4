/**
  The echo bot's webhook handler (echo_bot.py): a chain of early returns
  that answers an update with at most one reply, the message's text in
  upper case or a fixed sentence when there is no text.
 */
module EchoBot {
  import opened Wrappers
  import opened Webhook
  import opened Strings

  /** The `message` object of an update: its id, its chat's id and its
      optional text. */
  datatype Message = Message(messageId: int, chatId: int, text: Option<string>)

  /** An already parsed update, which may or may not hold a message. */
  datatype Update = Update(message: Option<Message>)

  /** The JSON body `send_message` posts to the chat platform. */
  datatype Reply = Reply(chatId: int, text: string, replyToMessageId: int)

  /** What one call of the handler does: the reply it posts, if any, and the
      envelope it returns. */
  datatype Outcome = Outcome(reply: Option<Reply>, response: Envelope)

  /** The reply to a message without text. */
  const TextOnly: string := "Могу обработать только текстовое сообщение!"

  /** `send_message`: a reply carrying `text`, addressed to the chat the
      message came from and threaded under that message. */
  function ReplyTo(text: string, message: Message): Reply {
    Reply(message.chatId, text, message.messageId)
  }

  /** `handler`, given the bot token read at start-up (absent when the
      environment has none) and the update.
      - Without a token nothing is sent, and the update is never looked at.
      - An update without a message gets no reply.
      - A message without text gets exactly the fixed text-only sentence.
      - A text message gets exactly its text in upper case.
      Every reply goes to the message's chat, threaded under the message, and
      every call returns the same envelope. */
  function Handler(token: Option<string>, update: Update, cm: CaseMap): (r: Outcome)
    ensures r.response == FuncResponse
    ensures token.None? ==> r.reply.None?
    ensures token.Some? && update.message.None? ==> r.reply.None?
    ensures token.Some? && update.message.Some? && update.message.value.text.None? ==>
      r.reply == Some(Reply(update.message.value.chatId, TextOnly, update.message.value.messageId))
    ensures token.Some? && update.message.Some? && update.message.value.text.Some? ==>
      r.reply == Some(Reply(update.message.value.chatId, Upper(update.message.value.text.value, cm),
                            update.message.value.messageId))
    ensures r.reply.Some? <==> token.Some? && update.message.Some?
    ensures r.reply.Some? ==>
      && update.message.Some?
      && r.reply.value.chatId == update.message.value.chatId
      && r.reply.value.replyToMessageId == update.message.value.messageId
  {
    if token.None? then Outcome(None, FuncResponse)
    else if update.message.None? then Outcome(None, FuncResponse)
    else
      var message := update.message.value;
      if message.text.None? then Outcome(Some(ReplyTo(TextOnly, message)), FuncResponse)
      else Outcome(Some(ReplyTo(Upper(message.text.value, cm), message)), FuncResponse)
  }

  /** Only whether a token is configured matters, never its value. */
  lemma HandlerIgnoresToken(t1: string, t2: string, update: Update, cm: CaseMap)
    ensures Handler(Some(t1), update, cm) == Handler(Some(t2), update, cm)
  {
  }
}
