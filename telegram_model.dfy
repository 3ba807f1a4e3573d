/**
 * The parts of the Telegram Bot API client library the adapter reads and
 * calls, as plain records. Nullable fields are `Option`s. The bot's
 * network call `execute` is modelled as appending the request to a log of
 * sent requests.
 */
module TelegramModel {
  import opened Lang

  /** A Telegram user: numeric id (`Long`) and first name. */
  datatype User = User(id: int64, firstName: string)

  /** A chat; only its numeric id (`Long`) is read. */
  datatype Chat = Chat(id: int64)

  /**
   * A delivered message. `messageId` is an `Integer`; `from` is absent for
   * messages sent on behalf of a channel; a message carries `text`, or a
   * `caption` when it is a media message, or neither.
   */
  datatype Message = Message(
    messageId: int32,
    from: Option<User>,
    chat: Chat,
    text: Option<string>,
    caption: Option<string>)

  /**
   * A press on an inline button. `message` is absent when the button
   * belonged to an inline-mode message; `data` is the button's payload.
   */
  datatype CallbackQuery = CallbackQuery(
    id: string,
    from: User,
    message: Option<Message>,
    data: Option<string>)

  /** The outbound request `new SendMessage(chatId, text)`. */
  datatype SendMessage = SendMessage(chatId: Option<JObject>, text: string)

  /** The transport client; `sent` is the log of every executed request. */
  class TelegramBot {
    var sent: seq<SendMessage>

    constructor ()
      ensures sent == []
    {
      sent := [];
    }

    /** `TelegramBot.execute`: one outbound call per request. */
    method Execute(request: SendMessage)
      modifies this
      ensures sent == old(sent) + [request]
    {
      sent := sent + [request];
    }
  }
}
