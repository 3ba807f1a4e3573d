/**
 * The command actor: a dispatch source wrapped together with the command
 * handler it arrived through. `TelegramActor` has a single implementation,
 * `BaseTelegramActor`, so the interface's default methods are members of
 * that class here.
 */
module Actors {
  import opened Lang
  import opened Identificators
  import opened TelegramModel
  import opened Dispatch
  import opened Memoizing

  /** `java.util.UUID(mostSigBits, leastSigBits)`. */
  datatype Uuid = Uuid(mostSigBits: int64, leastSigBits: int64)

  /**
   * The command handler as the actor sees it: the bot it sends through and
   * the prefix put in front of every reply.
   */
  datatype TelegramCommandHandler = TelegramCommandHandler(bot: TelegramBot, messagePrefix: string)

  /**
   * The body of the actor's uuid supplier, `new UUID(0, getId())`: the
   * author's id in the low half and zero in the high half. An event
   * without an author makes `getId` throw.
   */
  function DeriveUniqueId(ds: DispatchSource): (r: Result<Uuid>)
    ensures r.Ok? <==> ds.Author().Some?
    ensures r.Err? ==> r.error == NullPointer
    ensures r.Ok? ==> r.value.mostSigBits == 0 && r.value.leastSigBits == ds.Author().value.id
  {
    match ds.Author()
    case None => Err(NullPointer)
    case Some(u) => Ok(Uuid(0, u.id))
  }

  /** Distinct author ids give distinct unique ids, and equal ones equal ids. */
  lemma UniqueIdInjective(a: DispatchSource, b: DispatchSource)
    requires a.Author().Some? && b.Author().Some?
    ensures DeriveUniqueId(a) == DeriveUniqueId(b) <==> a.Author().value.id == b.Author().value.id
  {
  }

  /**
   * `reply`'s request: addressed to the boxed chat identifier, carrying the
   * prefix followed by the message. The chat identifier is dereferenced
   * first, so an event without a chat throws `NullPointerException`.
   */
  function ReplyRequest(ds: DispatchSource, prefix: string, message: string): (r: Result<SendMessage>)
    ensures r.Ok? <==> ds.ChatIdentificator().Some?
    ensures r.Err? ==> r.error == NullPointer
    ensures r.Ok? ==> r.value.chatId == ds.ChatIdentificator().value.AsObject()
    ensures r.Ok? ==> |r.value.text| == |prefix| + |message|
    ensures r.Ok? ==> r.value.text[..|prefix|] == prefix && r.value.text[|prefix|..] == message
  {
    match ds.ChatIdentificator()
    case None => Err(NullPointer)
    case Some(chat) => Ok(SendMessage(chat.AsObject(), prefix + message))
  }

  /**
   * A reply to a message, or to a button on a message, is addressed to that
   * message's chat as a `Long`; a reply to a detached callback query fails.
   */
  lemma ReplyAddress(ds: DispatchSource, prefix: string, message: string)
    ensures ds.MessageSource? ==>
      ReplyRequest(ds, prefix, message) == Ok(SendMessage(Some(OLong(ds.message.chat.id)), prefix + message))
    ensures ds.CallbackQuerySource? && ds.callbackQuery.message.Some? ==>
      ReplyRequest(ds, prefix, message) ==
        Ok(SendMessage(Some(OLong(ds.callbackQuery.message.value.chat.id)), prefix + message))
    ensures ds.CallbackQuerySource? && ds.callbackQuery.message.None? ==>
      ReplyRequest(ds, prefix, message) == Err(NullPointer)
  {
    ChatAddress(ds);
  }

  class BaseTelegramActor {
    const uuidSupplier: MemoizingSupplier<Uuid>
    const commandHandler: TelegramCommandHandler
    const dispatchSource: DispatchSource

    /**
     * The dispatch source is one its constructor could build, and the uuid
     * supplier is coherent and memoizes this actor's derived id.
     */
    ghost predicate Valid()
      reads this, uuidSupplier
    {
      && dispatchSource.Valid()
      && uuidSupplier.Valid()
      && uuidSupplier.delegate() == DeriveUniqueId(dispatchSource)
    }

    /** Keeps both arguments; the uuid supplier starts uninitialized. */
    constructor (commandHandler: TelegramCommandHandler, dispatchSource: DispatchSource)
      requires dispatchSource.Valid()
      ensures this.commandHandler == commandHandler && this.dispatchSource == dispatchSource
      ensures fresh(uuidSupplier) && !uuidSupplier.initialized && uuidSupplier.calls == 0
      ensures Valid()
    {
      this.commandHandler := commandHandler;
      this.dispatchSource := dispatchSource;
      uuidSupplier := new MemoizingSupplier(() => DeriveUniqueId(dispatchSource));
    }

    /** `getUser` (the default and the override agree): the event's author. */
    function GetUser(): (u: Option<User>)
      ensures dispatchSource.MessageSource? ==> u == dispatchSource.message.from
      ensures dispatchSource.CallbackQuerySource? ==> u == Some(dispatchSource.callbackQuery.from)
    {
      dispatchSource.Author()
    }

    /** `getId`: the author's id; throws when the event has no author. */
    function GetId(): (r: Result<int64>)
      ensures r.Ok? <==> dispatchSource.Author().Some?
      ensures r.Err? ==> r.error == NullPointer
      ensures r.Ok? ==> r.value == dispatchSource.Author().value.id
    {
      match GetUser()
      case None => Err(NullPointer)
      case Some(u) => Ok(u.id)
    }

    /** `getName`: the author's first name; throws when the event has no author. */
    function GetName(): (r: Result<string>)
      ensures r.Ok? <==> dispatchSource.Author().Some?
      ensures r.Err? ==> r.error == NullPointer
      ensures r.Ok? ==> r.value == dispatchSource.Author().value.firstName
    {
      match GetUser()
      case None => Err(NullPointer)
      case Some(u) => Ok(u.firstName)
    }

    /**
     * `getUniqueId`: the uuid `(0, getId())`, derived on the first call that
     * succeeds and answered from the supplier afterwards.
     */
    method GetUniqueId() returns (r: Result<Uuid>)
      requires Valid()
      modifies uuidSupplier
      ensures Valid()
      ensures r.Ok? <==> GetId().Ok?
      ensures r.Ok? ==> r.value == Uuid(0, GetId().value)
      ensures r.Err? ==> r.error == NullPointer
      ensures r.Ok? ==> uuidSupplier.initialized && uuidSupplier.calls == 1
      ensures r.Err? ==> !uuidSupplier.initialized && uuidSupplier.calls == old(uuidSupplier.calls) + 1
      ensures old(uuidSupplier.initialized) ==> uuidSupplier.calls == old(uuidSupplier.calls)
    {
      r := uuidSupplier.Get();
    }

    /**
     * `reply`: exactly one request, `prefix + message` to the event's chat,
     * goes out through the bot; when the event has no chat the call throws
     * and nothing is sent.
     */
    method Reply(message: string) returns (r: Outcome)
      modifies commandHandler.bot
      ensures r.Fail? <==> dispatchSource.ChatIdentificator().None?
      ensures r.Fail? ==> r.error == NullPointer && commandHandler.bot.sent == old(commandHandler.bot.sent)
      ensures r.Pass? ==>
        commandHandler.bot.sent ==
          old(commandHandler.bot.sent) + [ReplyRequest(dispatchSource, commandHandler.messagePrefix, message).value]
    {
      var request := ReplyRequest(dispatchSource, commandHandler.messagePrefix, message);
      if request.Err? {
        return Fail(request.error);
      }
      commandHandler.bot.Execute(request.value);
      r := Pass;
    }

    /** `error`: the same effect as `reply`. */
    method Error(message: string) returns (r: Outcome)
      modifies commandHandler.bot
      ensures r.Fail? <==> dispatchSource.ChatIdentificator().None?
      ensures r.Fail? ==> r.error == NullPointer && commandHandler.bot.sent == old(commandHandler.bot.sent)
      ensures r.Pass? ==>
        commandHandler.bot.sent ==
          old(commandHandler.bot.sent) + [ReplyRequest(dispatchSource, commandHandler.messagePrefix, message).value]
    {
      r := Reply(message);
    }
  }

  /** The actor's name and id both come from the event's author. */
  lemma ActorIdentity(actor: BaseTelegramActor)
    ensures actor.GetId().Ok? <==> actor.GetName().Ok?
    ensures actor.GetId().Ok? ==> DeriveUniqueId(actor.dispatchSource) == Ok(Uuid(0, actor.GetId().value))
  {
  }

  /**
   * `TelegramActor.wrap`: a new actor, with its own uninitialized uuid
   * supplier, over the given handler and dispatch source.
   */
  method Wrap(commandHandler: TelegramCommandHandler, dispatchSource: DispatchSource)
    returns (actor: BaseTelegramActor)
    requires dispatchSource.Valid()
    ensures fresh(actor) && fresh(actor.uuidSupplier)
    ensures actor.commandHandler == commandHandler && actor.dispatchSource == dispatchSource
    ensures actor.Valid() && !actor.uuidSupplier.initialized
  {
    actor := new BaseTelegramActor(commandHandler, dispatchSource);
  }
}
