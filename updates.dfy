/** The part of a Telegram update the bot reads: the message, if any, with its id, its chat,
    its sender and its text. A field the update leaves out is `None`. */
module Updates {
  import opened Wrappers

  /** `message.from`: the Telegram user id and the optional names. */
  datatype Sender = Sender(id: int, username: Option<string>, firstName: Option<string>, lastName: Option<string>)

  /** `message.message_id`, `message.chat.id`, `message.from` and `message.text`. */
  datatype IncomingMessage = IncomingMessage(messageId: int, chatId: int, from: Option<Sender>, text: Option<string>)

  datatype Update = Update(message: Option<IncomingMessage>)

  /** `message.text || ""`: a missing text reads as the empty string. */
  function TextOf(m: IncomingMessage): (t: string)
    ensures m.text.Some? ==> t == m.text.value
    ensures m.text.None? ==> t == ""
  {
    if m.text.Some? then m.text.value else ""
  }
}
