/**
 * The polymorphic identifier of a Telegram entity: a numeric id (chat ids,
 * user ids, message ids) or a textual id (callback query ids).
 *
 * The Java interface declares `isLong`/`isString` defaulting to false and
 * `asLong`/`asString` defaulting to a throw; `LongIdentificator` and
 * `StringIdentificator` each override exactly one pair. Here the interface
 * becomes a closed datatype whose third variant is an implementation that
 * overrides none of the defaults.
 */
module Identificators {
  import opened Lang

  datatype Identificator =
    | LongIdentificator(longId: int64)
    | StringIdentificator(stringId: string)
    | PlainIdentificator  // keeps every interface default
  {
    /** Overridden to `true` only by `StringIdentificator`. */
    predicate IsString() {
      StringIdentificator?
    }

    /** Overridden to `true` only by `LongIdentificator`. */
    predicate IsLong() {
      LongIdentificator?
    }

    /** The numeric value; throws `UnsupportedOperationException` without the numeric tag. */
    function AsLong(): (r: Result<int64>)
      ensures r.Ok? <==> IsLong()
      ensures r.Err? ==> r.error == UnsupportedOperation
    {
      match this
      case LongIdentificator(n) => Ok(n)
      case _ => Err(UnsupportedOperation)
    }

    /** The textual value; throws `UnsupportedOperationException` without the textual tag. */
    function AsString(): (r: Result<string>)
      ensures r.Ok? <==> IsString()
      ensures r.Err? ==> r.error == UnsupportedOperation
    {
      match this
      case StringIdentificator(s) => Ok(s)
      case _ => Err(UnsupportedOperation)
    }

    /**
     * The active value boxed as an `Object`: the long when tagged numeric
     * (tested first), else the string when tagged textual, else `null`.
     * It never throws, because each accessor is reached only under its tag.
     */
    function AsObject(): (r: Option<JObject>)
      ensures r.None? <==> !IsLong() && !IsString()
      ensures r.Some? ==> r.value.OLong? || r.value.OStr?
      ensures r.Some? && r.value.OLong? ==> AsLong() == Ok(r.value.l)
      ensures r.Some? && r.value.OStr? ==> AsString() == Ok(r.value.s)
    {
      if IsLong() then Some(OLong(AsLong().value))
      else if IsString() then Some(OStr(AsString().value))
      else None
    }
  }

  /** `Identificator.of(long)`. */
  function OfLong(id: int64): (r: Identificator)
    ensures r.IsLong() && !r.IsString()
    ensures r.AsLong() == Ok(id)
    ensures r.AsString() == Err(UnsupportedOperation)
  {
    LongIdentificator(id)
  }

  /** `Identificator.of(String)`; the argument is stored as given, unchecked. */
  function OfString(id: string): (r: Identificator)
    ensures r.IsString() && !r.IsLong()
    ensures r.AsString() == Ok(id)
    ensures r.AsLong() == Err(UnsupportedOperation)
  {
    StringIdentificator(id)
  }

  /** Unboxing as `fromObject` sees it: an `Integer` is widened to a `Long`. */
  function Widen(o: JObject): JObject {
    match o
    case OInt(i) => OLong(i)
    case _ => o
  }

  /**
   * `Identificator.fromObject`: a `Long` or an `Integer` becomes a numeric
   * identifier, a `String` a textual one, and `null` or any other object
   * yields `null` rather than an exception. The identifier built reports,
   * through `AsObject`, the object it was built from (an `Integer` widened).
   */
  function FromObject(o: Option<JObject>): (r: Option<Identificator>)
    ensures r.None? <==> o.None? || o.value.OOther?
    ensures r.Some? ==> r.value.AsObject() == Some(Widen(o.value))
    ensures r.Some? ==> (r.value.IsLong() <==> o.value.OLong? || o.value.OInt?)
    ensures r.Some? ==> (r.value.IsString() <==> o.value.OStr?)
  {
    match o
    case None => None
    case Some(OLong(n)) => Some(LongIdentificator(n))
    case Some(OInt(i)) => Some(LongIdentificator(i as int64))
    case Some(OStr(s)) => Some(StringIdentificator(s))
    case Some(OOther) => None
  }

  /** Exactly one tag at most: no identifier is both numeric and textual. */
  lemma TagsExclusive(id: Identificator)
    ensures !(id.IsLong() && id.IsString())
    ensures id.PlainIdentificator? ==> !id.IsLong() && !id.IsString()
    ensures id.PlainIdentificator? ==> id.AsObject() == None
  {
  }

  /**
   * Boxing then re-reading an identifier gives it back: `fromObject(id.asObject())`
   * is `id` for a tagged identifier and `null` for an untagged one.
   */
  lemma AsObjectRoundTrip(id: Identificator)
    ensures FromObject(id.AsObject()) == (if id.PlainIdentificator? then None else Some(id))
    ensures forall n: int64 :: FromObject(OfLong(n).AsObject()) == Some(OfLong(n))
    ensures forall s: string :: FromObject(OfString(s).AsObject()) == Some(OfString(s))
  {
  }

  /** An `Integer` and a `Long` of the same value give the same identifier. */
  lemma IntegerWidensToLong(i: int32)
    ensures FromObject(Some(OInt(i))) == FromObject(Some(OLong(i))) == Some(OfLong(i))
  {
  }
}
