# Telegram command actors for the Lamp command framework — a Dafny model

This project models the value-and-rule layer of a small adapter that lets the
Lamp command framework run bot commands from Telegram events:

- **Identificator**: a numeric or textual identity (chat, user and message ids are
  numbers, callback query ids are text), with tag tests, narrowing accessors that
  throw on the wrong tag, boxing to an `Object` and a factory from an untyped `Object`.
- **Dispatch sources**: a delivered message or a pressed inline button, seen through
  one surface: text, execution text, author, chat identifier, source identifier.
- **MemoizingSupplier**: the compute-once cell behind an actor's unique id.
- **BaseTelegramActor / TelegramActor**: the actor wrapping a dispatch source and its
  command handler: name, id, memoized unique id, and `reply`/`error`, which send one
  message through the bot.
- **TelegramSenderResolver**: the ordered rule by which a command method's sender
  parameter receives the author, the dispatch source or the actor itself.

Java exceptions are values: `Result<T>` is `Ok(value)` or `Err(exception)`, and
`Outcome` is the same for `void` calls. `Option` stands for a nullable reference.
`int32`/`int64` are Java's `int`/`long` ranges. The Telegram client library's records
(`User`, `Chat`, `Message`, `CallbackQuery`, `SendMessage`) are plain datatypes. The
bot's `execute` appends the request to the bot's log of sent requests.

Files: `lang.dfy` (Java vocabulary), `identificator.dfy`, `telegram_model.dfy`,
`dispatch_source.dfy`, `memoizing_supplier.dfy`, `actor.dfy`, `sender_resolver.dfy`.

Where the code differs from its own documentation or from the natural reading, the model follows the code:

- Message text: when a message has both text and a caption, the caption wins. The
  constructor assigns the text and then overwrites it with the caption.
- `StringIdentificator` performs no null check, although its documentation claims one.
- `reply` on an event without a chat identifier throws `NullPointerException` before
  anything is sent.

## Model

| member | source | states |
|---|---|---|
| `Identificators.Identificator.AsLong` | src/main/java/com/httydcraft/lamp/telegram/dispatch/identificator/Identificator.java:36-38 | succeeds exactly on a numeric identifier; otherwise throws UnsupportedOperationException, never a default |
| `Identificators.Identificator.AsString` | src/main/java/com/httydcraft/lamp/telegram/dispatch/identificator/Identificator.java:46-48 | succeeds exactly on a textual identifier; otherwise throws UnsupportedOperationException |
| `Identificators.Identificator.AsObject` | src/main/java/com/httydcraft/lamp/telegram/dispatch/identificator/Identificator.java:55-61 | null exactly when neither tag is set; otherwise a boxed Long or String equal to what the matching accessor returns |
| `Identificators.Identificator.IsLong` | src/main/java/com/httydcraft/lamp/telegram/dispatch/identificator/LongIdentificator.java:40-42 | its contract is carried by `TagsExclusive`, `OfLong` and `FromObject`: true for a `LongIdentificator` (and for what `of(long)` and `fromObject` of a Long or Integer build), false by the interface default otherwise, never together with `isString` |
| `Identificators.Identificator.IsString` | src/main/java/com/httydcraft/lamp/telegram/dispatch/identificator/StringIdentificator.java:41-43 | its contract is carried by `TagsExclusive`, `OfString` and `FromObject`: true for a `StringIdentificator` (and for what `of(String)` and `fromObject` of a String build), false by the interface default otherwise, never together with `isLong` |
| `Identificators.TagsExclusive` | src/main/java/com/httydcraft/lamp/telegram/dispatch/identificator/Identificator.java:17-28 | no identifier is both numeric and textual; one overriding no default has neither tag and boxes to null |
| `Identificators.FromObject` | src/main/java/com/httydcraft/lamp/telegram/dispatch/identificator/Identificator.java:69-77 | null (not an exception) exactly for null or an object of another kind; Long/Integer give a numeric identifier, String a textual one; re-boxing gives back the input, an Integer widened to Long |
| `Identificators.IntegerWidensToLong` | src/main/java/com/httydcraft/lamp/telegram/dispatch/identificator/Identificator.java:70-73 | an Integer and a Long of the same value give the same numeric identifier |
| `Identificators.OfLong` | src/main/java/com/httydcraft/lamp/telegram/dispatch/identificator/LongIdentificator.java:20-42 | `of(n)`, a `LongIdentificator`, keeps n unchanged: numeric, not textual, `asLong` gives n and the inherited `asString` throws (factory at Identificator.java lines 85-87) |
| `Identificators.OfString` | src/main/java/com/httydcraft/lamp/telegram/dispatch/identificator/StringIdentificator.java:21-43 | `of(s)`, a `StringIdentificator`, keeps s unchanged: textual, not numeric, `asString` gives s and the inherited `asLong` throws (factory at Identificator.java lines 95-97) |
| `Identificators.AsObjectRoundTrip` | src/main/java/com/httydcraft/lamp/telegram/dispatch/identificator/Identificator.java:55-97 | `fromObject(id.asObject())` is id for every tagged identifier and null for an untagged one; in particular `fromObject(of(n).asObject())` is `of(n)` and `fromObject(of(s).asObject())` is `of(s)` |
| `Dispatch.NewMessageDispatchSource` | src/main/java/com/httydcraft/lamp/telegram/dispatch/MessageDispatchSource.java:31-37 | the stored text is the caption when present, else the text, else null; the caption wins over the text |
| `Dispatch.DispatchSource.Text` | src/main/java/com/httydcraft/lamp/telegram/dispatch/MessageDispatchSource.java:31-47 | for a well-formed message source, the text fixed at construction: the caption when present, else the message text, else null; for a callback source, the callback data (CallbackQueryDispatchSource.java lines 36-38) |
| `Dispatch.DispatchSource.ExecutionText` | src/main/java/com/httydcraft/lamp/telegram/dispatch/CallbackQueryDispatchSource.java:46-48 | the execution text equals `getText` for both variants |
| `Dispatch.DispatchSource.Author` | src/main/java/com/httydcraft/lamp/telegram/dispatch/CallbackQueryDispatchSource.java:56-58 | for a callback source, always present: the user who pressed the button; for a message source, the message's `from`, null when absent (MessageDispatchSource.java lines 65-67) |
| `Dispatch.DispatchSource.SourceIdentificator` | src/main/java/com/httydcraft/lamp/telegram/dispatch/MessageDispatchSource.java:75-77 | never null; numeric holding the message id for a message, textual holding the query id for a callback (CallbackQueryDispatchSource.java lines 66-68) |
| `Dispatch.DispatchSource.ChatIdentificator` | src/main/java/com/httydcraft/lamp/telegram/dispatch/CallbackQueryDispatchSource.java:76-80 | null exactly for a callback without an attached message; otherwise numeric, holding the chat id of the message (MessageDispatchSource.java lines 85-87) |
| `Dispatch.NewCallbackQueryDispatchSource` | src/main/java/com/httydcraft/lamp/telegram/dispatch/CallbackQueryDispatchSource.java:26-38 | keeps the given query unchanged, so the identifiers read it; its text and execution text are the callback data, and its author is the query's `from` |
| `Dispatch.ChatAddress` | src/main/java/com/httydcraft/lamp/telegram/dispatch/MessageDispatchSource.java:85-87 | a chat identifier boxes to the chat id as a Long, for messages and attached callbacks alike |
| `Memoizing.MemoizingSupplier.constructor` | src/main/java/com/httydcraft/lamp/telegram/core/MemoizingSupplier.java:20-40 | keeps the delegate; starts uninitialized, with no value and no delegate call |
| `Memoizing.MemoizingSupplier.Memoize` | src/main/java/com/httydcraft/lamp/telegram/core/MemoizingSupplier.java:79-81 | a null delegate throws NullPointerException (the check at line 39); otherwise a new, uninitialized supplier |
| `Memoizing.GetStep` | src/main/java/com/httydcraft/lamp/telegram/core/MemoizingSupplier.java:49-62 | one `get`, with a delegate whose n-th call may answer differently: keeps the cell invariant; an initialized cell is left unchanged and answers its stored value without calling the delegate; an uninitialized one makes the next delegate call, answers it, and is initialized with it iff it returns |
| `Memoizing.MemoizingSupplier.Get` | src/main/java/com/httydcraft/lamp/telegram/core/MemoizingSupplier.java:49-62 | the fields change as `GetStep` says; `initialized` never goes back to false; once initialized the delegate is not called; a throwing call leaves it uninitialized and counts one more delegate call |
| `Memoizing.RepeatedGets` | src/main/java/com/httydcraft/lamp/telegram/core/MemoizingSupplier.java:49-62 | over any number of `get` calls, with a delegate whose answers may change from call to call: every call that returns gives the value finally stored, the delegate is not called after its first return, an initialized cell answers its stored value each time, and a throwing delegate is retried on every call |
| `Memoizing.ConstantCalledOnce` | src/main/java/com/httydcraft/lamp/telegram/core/MemoizingSupplier.java:49-62 | with a delegate that answers the same every time and returns, a coherent cell has called it at most once, and exactly once when initialized |
| `Memoizing.MemoizedNotRecomputed` | src/main/java/com/httydcraft/lamp/telegram/core/MemoizingSupplier.java:49-62 | with a delegate answering 1 and then 2, two `get` calls both answer 1 and call it once: the value is cached, not recomputed |
| `Actors.DeriveUniqueId` | src/main/java/com/httydcraft/lamp/telegram/core/BaseTelegramActor.java:29 | the uuid has most-significant bits 0 and least-significant bits the author's id; no author throws NullPointerException |
| `Actors.UniqueIdInjective` | src/main/java/com/httydcraft/lamp/telegram/core/BaseTelegramActor.java:29 | two authors get the same unique id exactly when their ids are equal |
| `Actors.BaseTelegramActor.constructor` | src/main/java/com/httydcraft/lamp/telegram/core/BaseTelegramActor.java:47-50 | keeps the handler and the dispatch source unchanged, as `getCommandHandler`/`getDispatchSource` return them; the uuid supplier is new and uninitialized; the dispatch source must be one its own constructor built |
| `Actors.BaseTelegramActor.GetUser` | src/main/java/com/httydcraft/lamp/telegram/core/BaseTelegramActor.java:110-112 | the author of the actor's dispatch source: the message's `from` or the callback's pressing user; the interface default (TelegramActor.java lines 33-35) gives the same |
| `Actors.BaseTelegramActor.GetId` | src/main/java/com/httydcraft/lamp/telegram/TelegramActor.java:23-25 | the id of the dispatch source's author; throws NullPointerException when there is no author |
| `Actors.ActorIdentity` | src/main/java/com/httydcraft/lamp/telegram/TelegramActor.java:23-35 | name and id exist together, both from the dispatch source's author; the derived uuid is `(0, getId())` |
| `Actors.BaseTelegramActor.GetName` | src/main/java/com/httydcraft/lamp/telegram/core/BaseTelegramActor.java:58-60 | the author's first name; throws NullPointerException when there is no author |
| `Actors.BaseTelegramActor.GetUniqueId` | src/main/java/com/httydcraft/lamp/telegram/core/BaseTelegramActor.java:68-70 | answers `(0, getId())`, derived once: after a successful call the derivation has run exactly once, and later calls do not run it; a call that throws leaves the supplier uninitialized, to be retried on the next call |
| `Actors.ReplyRequest` | src/main/java/com/httydcraft/lamp/telegram/core/BaseTelegramActor.java:78-82 | the request goes to the boxed chat identifier with text prefix followed by message; no chat identifier throws NullPointerException |
| `Actors.ReplyAddress` | src/main/java/com/httydcraft/lamp/telegram/core/BaseTelegramActor.java:79 | a reply to a message or an attached callback goes to its chat id as a Long; a reply to a detached callback throws |
| `Actors.BaseTelegramActor.Reply` | src/main/java/com/httydcraft/lamp/telegram/core/BaseTelegramActor.java:78-82 | appends exactly the one request to the bot's sent log; throws and sends nothing when the chat identifier is null |
| `Actors.BaseTelegramActor.Error` | src/main/java/com/httydcraft/lamp/telegram/core/BaseTelegramActor.java:90-92 | the same outcome and the same effect on the sent log as `reply` |
| `Actors.Wrap` | src/main/java/com/httydcraft/lamp/telegram/TelegramActor.java:53-55 | a new actor over the given handler and dispatch source, with its own new, uninitialized uuid supplier |
| `SenderResolution.IsCustomType` | src/main/java/com/httydcraft/lamp/telegram/core/TelegramSenderResolver.java:39-41 | true exactly for User, DispatchSource and the two dispatch-source classes |
| `SenderResolution.GetSender` | src/main/java/com/httydcraft/lamp/telegram/core/TelegramSenderResolver.java:53-61 | a non-Telegram actor throws ClassCastException; a User type gets the author, a dispatch-source type the dispatch source, any other type the actor |
| `SenderResolution.CustomTypesDisjoint` | src/main/java/com/httydcraft/lamp/telegram/core/TelegramSenderResolver.java:56-59 | no type is both a User type and a DispatchSource type, so the order of the two tests is immaterial |
| `SenderResolution.FallbackIffNotCustom` | src/main/java/com/httydcraft/lamp/telegram/core/TelegramSenderResolver.java:39-60 | for a Telegram actor the resolver never fails, and it falls back to the actor exactly for the types `isCustomType` rejects |

## Left out

- `TelegramHandler` is not part of this model. Its constructor only calls into the Lamp framework (exception handler, dependency and sender-resolver registration). Its static instance registry exists for thread-safe introspection.
- `TelegramCommandHandler` is modelled only as the record the actor reads: the bot and the message prefix.
- `DispatchSource.as`, `Class.cast` and `isAssignableFrom` are reflection. The dispatch-source variants are datatype tests, and assignability is the explicit relation `SenderResolution.IsAssignableFrom`.
- `getMessage`, `getCallbackQuery`, `getDispatchSource` and `getCommandHandler` are plain field reads. They are the datatype fields and the class's `const` fields.
- Concurrency in `MemoizingSupplier` is not modelled: `volatile`, `synchronized` and double-checked locking. Only sequential `get` calls are modelled. `Serializable`, `transient` and `toString` are left out too.
- `Memoizing.MemoizingSupplier.Get`: the class's delegate answers the same on every call, so the class alone would give the same answers without caching. The only delegate in the core, `new UUID(0, getId())` at core/BaseTelegramActor.java line 29, reads only final fields, so it is such a delegate. Caching with a delegate whose answers change is proved on the cell model instead (`GetStep`, `RepeatedGets`, `MemoizedNotRecomputed`).
- Null strings and null records that the Telegram API never sends are not modelled: a null `String` given to `StringIdentificator`, a message without a chat, a callback without a sender, a user without an id.
- `TelegramBot.execute` only appends to a log of sent requests. Network delivery and the transport's own failures are outside the model.
- The unused `ExecutableCommand` parameter of `getSender` is dropped.
- Null constructor arguments of the dispatch sources are not modelled. `MessageDispatchSource(null)` throws `NullPointerException` at dispatch/MessageDispatchSource.java line 33. `CallbackQueryDispatchSource`'s documentation (line 24) promises the same exception, but lines 26-28 just store the null and fail later.
- Identifiers are compared as values. Java compares identificators by reference, since no identificator class overrides `equals`. Nothing in the core compares them, but `AsObjectRoundTrip` and `IntegerWidensToLong` state equality of values, not identity of objects.
- `DispatchSource.MessageSource` values not built by `NewMessageDispatchSource` can hold a text that is not the message's. What is proved about the selected text holds under `Valid()`, which the actor's constructor and `Wrap` require.
