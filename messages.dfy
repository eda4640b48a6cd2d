/** Chat messages, shared by the popup's conversation and the feedback log. */
module Messages {
  import opened Wrappers

  datatype Sender = User | Bot

  /** A conversation entry. `buttons` is set when a rule response is spread
      into the message; `interactionId` and `feedback` are the fields the
      feedback handler reads and writes. */
  datatype Message = Message(
    sender: Sender,
    text: string,
    buttons: Option<seq<string>>,
    interactionId: Option<string>,
    feedback: Option<string>)

  /** `{ sender: 'user', text }` */
  function UserMessage(text: string): Message {
    Message(User, text, None, None, None)
  }

  /** `{ sender: 'bot', text }` */
  function BotText(text: string): Message {
    Message(Bot, text, None, None, None)
  }
}
