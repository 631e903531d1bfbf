/**
  The message shapes the core handles: the model framework's chat message (with the `Extra` map
  the normaliser fills), the bot platform's message and chat event, and the upstream error that
  ends every stream read loop.
 */
module Schema {
  import opened Wrappers

  /** The role strings of the chat-message schema. */
  const Assistant: string := "assistant"

  /** The content category a streamed token belongs to. */
  datatype Category = Text | Think | Suggest

  /**
    The `Extra` map of a message: empty, or the two entries the normaliser writes
    (the content category and the raw token).
   */
  datatype Extra = NoExtra | Tagged(category: Category, raw: string)

  /** A chat message as the model framework carries it. */
  datatype Message = Message(
    role: string,
    content: string,
    reasoningContent: string,
    name: string,
    extra: Extra)

  /** A message in the bot platform's shape. */
  datatype CozeMessage = CozeMessage(
    role: string,
    content: string,
    reasoningContent: string,
    kind: string,
    contentType: string)

  /** The bot platform's chat event kinds; only message deltas carry streamed content. */
  datatype ChatEventKind = MessageDelta | MessageCompleted | ChatCreated | ChatInProgress
                         | ChatCompleted | ChatFailed | Done | OtherEvent(name: string)

  /** A bot-platform chat event; its message may be absent (nil). */
  datatype ChatEvent = ChatEvent(event: ChatEventKind, message: Option<CozeMessage>)

  /** The error a `Recv` returns: end of stream or a transport/protocol error. */
  datatype UpstreamError = EndOfStream | Transport(reason: string)
}
