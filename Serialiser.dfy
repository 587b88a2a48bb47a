/**
  The contract every Gaffer to-bytes serialiser declares: a pair of
  conversions between values and byte arrays, with the properties a
  serialiser may claim about them.
*/
module Serialiser {
  import opened Wrappers
  import opened ByteOrder

  datatype SerialisationError = SerialisationError(message: string)

  /** `serialise` and `deserialise` of one serialiser (`deserialise` may throw). */
  datatype Serialiser<!T> = Serialiser(
    serialise: T -> Bytes,
    deserialise: Bytes -> Result<T, SerialisationError>)

  /** Every value comes back from its own bytes. */
  ghost predicate RoundTrips<T(!new)>(s: Serialiser<T>)
  {
    forall v :: s.deserialise(s.serialise(v)) == Success(v)
  }

  /** The byte order of the output agrees with the values' natural order `less`. */
  ghost predicate PreservesOrder<T(!new)>(s: Serialiser<T>, less: (T, T) -> bool)
  {
    forall a, b :: less(a, b) ==> ByteLess(s.serialise(a), s.serialise(b))
  }

  /** Values that `same` identifies get byte-identical output. */
  ghost predicate Consistent<T(!new)>(s: Serialiser<T>, same: (T, T) -> bool)
  {
    forall a, b :: same(a, b) ==> s.serialise(a) == s.serialise(b)
  }
}
