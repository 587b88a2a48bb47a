/**
  A `java.util.Date` serialised as its epoch-millisecond `long` through an
  ordered long serialiser. The long serialiser's byte layout is not part of
  this model: every member takes it as a parameter, and each property of the
  date serialiser is proved from the matching property of the long one.
*/
module OrderedRawDateSerialiser {
  import opened Wrappers
  import opened JavaLang
  import opened ByteOrder
  import opened Serialiser

  /** A `java.util.Date`: its `getTime()`, milliseconds since the epoch. */
  datatype Date = Date(time: Long)

  /** The natural order of longs. */
  predicate LongLess(a: Long, b: Long) { a < b }

  /** The natural order of dates: `Date.before`. */
  predicate Before(a: Date, b: Date) { a.time < b.time }

  /** `Date.equals`: the same instant. */
  predicate SameInstant(a: Date, b: Date) { a.time == b.time }

  /** `serialise`: the long serialiser applied to the epoch milliseconds. */
  function Serialise(longSerialiser: Serialiser<Long>, date: Date): Bytes
  {
    longSerialiser.serialise(date.time)
  }

  /** `deserialise`: a new date from the long the bytes decode to; a failure propagates. */
  function Deserialise(longSerialiser: Serialiser<Long>, bytes: Bytes): (r: Result<Date, SerialisationError>)
    ensures r.Success? <==> longSerialiser.deserialise(bytes).Success?
    ensures r.Success? ==> r.value.time == longSerialiser.deserialise(bytes).value
    ensures r.Failure? ==> r.error == longSerialiser.deserialise(bytes).error
  {
    match longSerialiser.deserialise(bytes)
    case Success(millis) => Success(Date(millis))
    case Failure(e) => Failure(e)
  }

  /** `deserialiseEmpty`: the absent date, whatever the long serialiser does. */
  function DeserialiseEmpty(longSerialiser: Serialiser<Long>): (r: Option<Date>)
    ensures r == None
  {
    None
  }

  /** `preservesObjectOrdering`: the declaration this serialiser makes. */
  function PreservesObjectOrdering(): bool
  {
    true
  }

  /** `canHandle`: only the `Date` class. */
  function CanHandle(clazz: JavaClass): (r: bool)
    ensures r <==> clazz.name == "java.util.Date"
  {
    DateClass == clazz
  }

  /** The serialiser as a whole, for the contract predicates. */
  function DateSerialiser(longSerialiser: Serialiser<Long>): Serialiser<Date>
  {
    Serialiser(d => Serialise(longSerialiser, d), b => Deserialise(longSerialiser, b))
  }

  /** Decoding the bytes of a date gives back that date. */
  lemma RoundTrip(longSerialiser: Serialiser<Long>, d: Date)
    requires RoundTrips(longSerialiser)
    ensures Deserialise(longSerialiser, Serialise(longSerialiser, d)) == Success(d)
  {
    assert longSerialiser.deserialise(longSerialiser.serialise(d.time)) == Success(d.time);
  }

  lemma InheritsRoundTrip(longSerialiser: Serialiser<Long>)
    requires RoundTrips(longSerialiser)
    ensures RoundTrips(DateSerialiser(longSerialiser))
  {
    forall d: Date
      ensures DateSerialiser(longSerialiser).deserialise(DateSerialiser(longSerialiser).serialise(d)) == Success(d)
    {
      RoundTrip(longSerialiser, d);
    }
  }

  /** Two dates encoding to the same bytes are the same date. */
  lemma SerialiseInjective(longSerialiser: Serialiser<Long>, d1: Date, d2: Date)
    requires RoundTrips(longSerialiser)
    requires Serialise(longSerialiser, d1) == Serialise(longSerialiser, d2)
    ensures d1 == d2
  {
    RoundTrip(longSerialiser, d1);
    RoundTrip(longSerialiser, d2);
  }

  /** An earlier date sorts strictly first. */
  lemma OrderPreserved(longSerialiser: Serialiser<Long>, d1: Date, d2: Date)
    requires PreservesOrder(longSerialiser, LongLess)
    requires Before(d1, d2)
    ensures ByteLess(Serialise(longSerialiser, d1), Serialise(longSerialiser, d2))
  {
    assert LongLess(d1.time, d2.time);
  }

  /** Byte order is exactly date order: the comparison can be read back from the bytes. */
  lemma OrderReflected(longSerialiser: Serialiser<Long>, d1: Date, d2: Date)
    requires PreservesOrder(longSerialiser, LongLess)
    ensures ByteLess(Serialise(longSerialiser, d1), Serialise(longSerialiser, d2)) <==> Before(d1, d2)
  {
    var b1, b2 := Serialise(longSerialiser, d1), Serialise(longSerialiser, d2);
    if Before(d1, d2) {
      OrderPreserved(longSerialiser, d1, d2);
    } else if d1.time == d2.time {
      ByteLessIrreflexive(b1);
    } else {
      OrderPreserved(longSerialiser, d2, d1);
      ByteLessAsymmetric(b2, b1);
    }
  }

  /** The declaration `preservesObjectOrdering() == true` is truthful whenever the long serialiser's is. */
  lemma DeclaredOrderingHolds(longSerialiser: Serialiser<Long>)
    requires PreservesOrder(longSerialiser, LongLess)
    ensures PreservesObjectOrdering()
    ensures PreservesOrder(DateSerialiser(longSerialiser), Before)
  {
    forall d1: Date, d2: Date | Before(d1, d2)
      ensures ByteLess(DateSerialiser(longSerialiser).serialise(d1), DateSerialiser(longSerialiser).serialise(d2))
    {
      OrderPreserved(longSerialiser, d1, d2);
    }
  }

  /** Equal dates give byte-identical output. */
  lemma Deterministic(longSerialiser: Serialiser<Long>, d1: Date, d2: Date)
    requires SameInstant(d1, d2)
    ensures Serialise(longSerialiser, d1) == Serialise(longSerialiser, d2)
  {
  }

  lemma InheritsConsistency(longSerialiser: Serialiser<Long>)
    ensures Consistent(DateSerialiser(longSerialiser), SameInstant)
  {
  }
}
