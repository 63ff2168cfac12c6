/** The values the bot exchanges with the Telegram Bot API, cut down to the
    fields the engine reads, and the API's send call as an oracle. */
module Telegram {

  /** A Telegram chat or user identifier (int64 in the API; never used in arithmetic). */
  type ChatId = int

  datatype Option<+T> = None | Some(value: T)

  /** One size of an attached photo; the API lists the sizes smallest first. */
  datatype PhotoSize = PhotoSize(fileId: string)

  datatype Document = Document(fileId: string)

  /** The sender of a callback query. */
  datatype User = User(id: ChatId, userName: string, firstName: string, lastName: string)

  /** An inbound message.
      `date` is the Unix time in seconds the API stamps on the message (what `Time()` reads);
      `mediaGroupId` is "" unless the message is one item of an album;
      `replyForwardFrom` is the original sender of the forwarded message this one
      replies to, when it replies to a forwarded message whose sender is known. */
  datatype Message = Message(
    messageId: int,
    chatId: ChatId,
    date: int,
    text: string,
    caption: string,
    photo: seq<PhotoSize>,
    document: Option<Document>,
    mediaGroupId: string,
    replyForwardFrom: Option<ChatId>)

  /** A press of an inline button: the chat it came from, who pressed it and the button's data. */
  datatype CallbackQuery = CallbackQuery(chatId: ChatId, from: User, data: string)

  /** The outcome of one outbound call. `Blocked` is the error whose text is
      "Forbidden: bot was blocked by the user"; every other error is `OtherError`. */
  datatype SendOutcome = Ok | Blocked | OtherError

  /** One item of an outbound album. */
  datatype InputMedia =
    | InputPhoto(fileId: string, caption: string)
    | InputDocument(fileId: string, caption: string)

  /** What one outbound call carries. */
  datatype Outbound =
    | SendPhoto(fileId: string, caption: string)
    | SendDocument(fileId: string, caption: string)
    | SendAlbum(items: seq<InputMedia>)
    | SendText(text: string)
    | ForwardOf(fromChat: ChatId, messageId: int)

  /** One outbound call: whom it goes to and what it carries. */
  datatype Delivery = Delivery(to: ChatId, content: Outbound)

  /** The API's `Send` as an oracle: the outcome of sending `content` to a recipient. */
  type Transport = (ChatId, Outbound) -> SendOutcome
}
