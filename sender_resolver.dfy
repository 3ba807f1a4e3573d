/**
 * `TelegramSenderResolver`: the strategy the command engine asks for a
 * command method's sender parameter. Java's `Class.isAssignableFrom` is
 * an explicit subtype relation over the classes a parameter can name.
 */
module SenderResolution {
  import opened Lang
  import opened TelegramModel
  import opened Dispatch
  import opened Actors

  /** The class a command method's sender parameter is declared with. */
  datatype ClassType =
    | UserClass
    | DispatchSourceClass
    | MessageDispatchSourceClass
    | CallbackQueryDispatchSourceClass
    | TelegramActorClass
    | ObjectClass
    | OtherClass(name: string)

  /**
   * `target.isAssignableFrom(t)`: `t` is `target` or one of its subtypes.
   * Both dispatch-source classes implement `DispatchSource`; every class
   * extends `Object`.
   */
  predicate IsAssignableFrom(target: ClassType, t: ClassType) {
    || target == t
    || target == ObjectClass
    || (target == DispatchSourceClass && (t == MessageDispatchSourceClass || t == CallbackQueryDispatchSourceClass))
  }

  /** The command actor handed to the resolver: a Telegram actor or some other implementation. */
  datatype CommandActor = TelegramCommandActor(actor: BaseTelegramActor) | ForeignActor

  /** What the resolver hands back: a (nullable) user, a dispatch source, or the actor. */
  datatype Sender =
    | UserSender(user: Option<User>)
    | DispatchSourceSender(source: DispatchSource)
    | ActorSender(actor: BaseTelegramActor)

  /** `isCustomType`: the types of a user or of a dispatch source, and no other. */
  function IsCustomType(t: ClassType): (r: bool)
    ensures r <==> t in {UserClass, DispatchSourceClass, MessageDispatchSourceClass, CallbackQueryDispatchSourceClass}
  {
    IsAssignableFrom(UserClass, t) || IsAssignableFrom(DispatchSourceClass, t)
  }

  /**
   * `getSender`: casts the actor to a Telegram actor (a `ClassCastException`
   * otherwise), then answers the author for a user type, the dispatch
   * source for a dispatch-source type, and the actor itself for anything else.
   */
  function GetSender(t: ClassType, actor: CommandActor): (r: Result<Sender>)
    ensures r.Err? <==> actor.ForeignActor?
    ensures r.Err? ==> r.error == ClassCast
    ensures r.Ok? && t == UserClass ==> r.value == UserSender(actor.actor.dispatchSource.Author())
    ensures r.Ok? && t in {DispatchSourceClass, MessageDispatchSourceClass, CallbackQueryDispatchSourceClass} ==>
      r.value == DispatchSourceSender(actor.actor.dispatchSource)
    ensures r.Ok? && !IsCustomType(t) ==> r.value == ActorSender(actor.actor)
  {
    match actor
    case ForeignActor => Err(ClassCast)
    case TelegramCommandActor(a) =>
      if IsAssignableFrom(UserClass, t) then Ok(UserSender(a.GetUser()))
      else if IsAssignableFrom(DispatchSourceClass, t) then Ok(DispatchSourceSender(a.dispatchSource))
      else Ok(ActorSender(a))
  }

  /**
   * No class is both a user type and a dispatch-source type, so the order of
   * the two tests in `getSender` decides nothing.
   */
  lemma CustomTypesDisjoint(t: ClassType)
    ensures !(IsAssignableFrom(UserClass, t) && IsAssignableFrom(DispatchSourceClass, t))
  {
  }

  /**
   * For a Telegram actor, the resolver falls back to the actor itself
   * exactly for the types it does not claim as custom, and that fallback
   * never fails.
   */
  lemma FallbackIffNotCustom(t: ClassType, actor: BaseTelegramActor)
    ensures GetSender(t, TelegramCommandActor(actor)).Ok?
    ensures IsCustomType(t) <==> !GetSender(t, TelegramCommandActor(actor)).value.ActorSender?
  {
  }
}
