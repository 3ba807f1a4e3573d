/**
 * A dispatch source: one inbound Telegram event seen through the uniform
 * surface the command engine uses (text, execution text, author, chat
 * identifier, source identifier). The two implementations of the Java
 * interface become the two variants of a closed datatype.
 */
module Dispatch {
  import opened Lang
  import opened Identificators
  import opened TelegramModel

  datatype DispatchSource =
    /** `MessageDispatchSource`: the message and the text fixed at construction. */
    | MessageSource(message: Message, messageText: Option<string>)
    /** `CallbackQueryDispatchSource`: the callback query alone. */
    | CallbackQuerySource(callbackQuery: CallbackQuery)
  {
    /**
     * A message source holds the text its constructor selected: the caption
     * when there is one, otherwise the text, otherwise `null`.
     */
    predicate Valid() {
      MessageSource? ==>
        messageText == if message.caption.Some? then message.caption else message.text
    }

    /**
     * `getText`: the stored message text, or the callback's data. For a
     * well-formed message source that is the caption if there is one,
     * otherwise the message text, otherwise `null`.
     */
    function Text(): (r: Option<string>)
      ensures Valid() && MessageSource? && message.caption.Some? ==> r == message.caption
      ensures Valid() && MessageSource? && message.caption.None? && message.text.Some? ==> r == message.text
      ensures Valid() && MessageSource? && message.caption.None? && message.text.None? ==> r.None?
      ensures CallbackQuerySource? ==> r == callbackQuery.data
    {
      match this
      case MessageSource(_, t) => t
      case CallbackQuerySource(q) => q.data
    }

    /** `getExecutionText`: for both variants, the raw text. */
    function ExecutionText(): (r: Option<string>)
      ensures r == Text()
    {
      match this
      case MessageSource(_, _) => Text()
      case CallbackQuerySource(q) => q.data
    }

    /** `getAuthor`: the sender of the message, or the user who pressed the button. */
    function Author(): (r: Option<User>)
      ensures MessageSource? ==> r == message.from
      ensures CallbackQuerySource? ==> r == Some(callbackQuery.from)
    {
      match this
      case MessageSource(m, _) => m.from
      case CallbackQuerySource(q) => Some(q.from)
    }

    /**
     * `getSourceIdentificator`: never null; the message id as a numeric
     * identifier, or the callback query id as a textual one.
     */
    function SourceIdentificator(): (r: Identificator)
      ensures r.IsLong() <==> MessageSource?
      ensures r.IsString() <==> CallbackQuerySource?
      ensures MessageSource? ==> r.AsLong() == Ok(message.messageId as int64)
      ensures CallbackQuerySource? ==> r.AsString() == Ok(callbackQuery.id)
    {
      match this
      case MessageSource(m, _) => OfLong(m.messageId)
      case CallbackQuerySource(q) => OfString(q.id)
    }

    /**
     * `getChatIdentficator`: the numeric id of the chat the event came
     * from; `null` only for a callback query without an attached message.
     */
    function ChatIdentificator(): (r: Option<Identificator>)
      ensures r.None? <==> CallbackQuerySource? && callbackQuery.message.None?
      ensures r.Some? ==> r.value.IsLong()
      ensures MessageSource? ==> r.Some? && r.value.AsLong() == Ok(message.chat.id)
      ensures CallbackQuerySource? && callbackQuery.message.Some? ==>
        r.Some? && r.value.AsLong() == Ok(callbackQuery.message.value.chat.id)
    {
      match this
      case MessageSource(m, _) => Some(OfLong(m.chat.id))
      case CallbackQuerySource(q) =>
        if q.message.Some? then Some(OfLong(q.message.value.chat.id)) else None
    }
  }

  /**
   * The `MessageDispatchSource` constructor. The text field starts `null`,
   * takes the message text if present, and is then overwritten by the
   * caption if present: when a message has both, the caption wins.
   */
  method NewMessageDispatchSource(message: Message) returns (ds: DispatchSource)
    ensures ds.MessageSource? && ds.message == message && ds.Valid()
    ensures message.caption.Some? ==> ds.Text() == message.caption
    ensures message.caption.None? ==> ds.Text() == message.text
  {
    var messageText: Option<string> := None;
    if message.text.Some? {
      messageText := message.text;
    }
    if message.caption.Some? {
      messageText := message.caption;
    }
    ds := MessageSource(message, messageText);
  }

  /** The `CallbackQueryDispatchSource` constructor keeps the query as it is. */
  function NewCallbackQueryDispatchSource(callbackQuery: CallbackQuery): (ds: DispatchSource)
    ensures ds.Valid() && ds.CallbackQuerySource? && ds.callbackQuery == callbackQuery
    ensures ds.Text() == ds.ExecutionText() == callbackQuery.data
    ensures ds.Author() == Some(callbackQuery.from)
  {
    CallbackQuerySource(callbackQuery)
  }

  /**
   * Both variants give a chat identifier whose boxed form is the chat id as
   * a `Long`, except a detached callback query, which gives none.
   */
  lemma ChatAddress(ds: DispatchSource)
    ensures ds.MessageSource? ==>
      ds.ChatIdentificator().Some? && ds.ChatIdentificator().value.AsObject() == Some(OLong(ds.message.chat.id))
    ensures ds.CallbackQuerySource? && ds.callbackQuery.message.Some? ==>
      ds.ChatIdentificator().Some? &&
      ds.ChatIdentificator().value.AsObject() == Some(OLong(ds.callbackQuery.message.value.chat.id))
    ensures ds.CallbackQuerySource? && ds.callbackQuery.message.None? ==> ds.ChatIdentificator().None?
  {
  }
}
