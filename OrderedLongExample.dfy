/**
  One long serialiser that meets both hypotheses the date serialiser's
  lemmas rely on: eight big-endian bytes of the value shifted by 2^63, so
  that negative longs sort before positive ones. It shows that the assumed
  contract of the delegate can be met, and so that those lemmas are not
  vacuous; it is not presented as the byte layout of Gaffer's own long
  serialiser, which is not part of this model.
*/
module OrderedLongExample {
  import opened Wrappers
  import opened JavaLang
  import opened ByteOrder
  import opened Serialiser
  import OrderedRawDateSerialiser

  const Width: nat := 8
  const Offset: int := 0x8000_0000_0000_0000

  function Pow256(k: nat): (r: nat)
    ensures r > 0
  {
    if k == 0 then 1 else 256 * Pow256(k - 1)
  }

  /** The `k` low base-256 digits of `n`, most significant first. */
  function ToBigEndian(n: nat, k: nat): (r: Bytes)
    ensures |r| == k
  {
    if k == 0 then [] else ToBigEndian(n / 256, k - 1) + [n % 256]
  }

  /** The number whose base-256 digits, most significant first, are `s`. */
  function FromBigEndian(s: Bytes): (n: nat)
    ensures n < Pow256(|s|)
  {
    if s == [] then 0 else FromBigEndian(s[..|s| - 1]) * 256 + s[|s| - 1]
  }

  lemma {:induction false} FromToBigEndian(n: nat, k: nat)
    requires n < Pow256(k)
    ensures FromBigEndian(ToBigEndian(n, k)) == n
  {
    if k > 0 {
      var s := ToBigEndian(n, k);
      assert s[..k - 1] == ToBigEndian(n / 256, k - 1);
      FromToBigEndian(n / 256, k - 1);
    }
  }

  /** The digits of a smaller number sort first. */
  lemma {:induction false} ToBigEndianMonotonic(n: nat, m: nat, k: nat)
    requires n < m < Pow256(k)
    ensures ByteLess(ToBigEndian(n, k), ToBigEndian(m, k))
  {
    assert k > 0;
    var hn, hm := n / 256, m / 256;
    var p, q := ToBigEndian(hn, k - 1), ToBigEndian(hm, k - 1);
    assert ToBigEndian(n, k) == p + [n % 256];
    assert ToBigEndian(m, k) == q + [m % 256];
    if hn < hm {
      assert hm < Pow256(k - 1);
      ToBigEndianMonotonic(hn, hm, k - 1);
      ByteLessAppend(p, q, n % 256, m % 256);
    } else {
      assert hn == hm && n % 256 < m % 256;
      ByteLessLast(p, n % 256, m % 256);
    }
  }

  /** A long as eight bytes, shifted so that the smallest long encodes as all zeros. */
  function Encode(x: Long): Bytes
  {
    ToBigEndian(x + Offset, Width)
  }

  /** The inverse of `Encode`; any length other than eight is malformed. */
  function Decode(bytes: Bytes): Result<Long, SerialisationError>
  {
    if |bytes| != Width then Failure(SerialisationError("expected eight bytes"))
    else
      assert Pow256(Width) == 2 * Offset;
      Success(FromBigEndian(bytes) - Offset)
  }

  function LongSerialiser(): Serialiser<Long>
  {
    Serialiser(Encode, Decode)
  }

  lemma ExampleRoundTrips()
    ensures RoundTrips(LongSerialiser())
  {
    assert Pow256(Width) == 2 * Offset;
    forall x: Long
      ensures Decode(Encode(x)) == Success(x)
    {
      FromToBigEndian(x + Offset, Width);
    }
  }

  lemma ExamplePreservesOrder()
    ensures PreservesOrder(LongSerialiser(), OrderedRawDateSerialiser.LongLess)
  {
    assert Pow256(Width) == 2 * Offset;
    forall a: Long, b: Long | OrderedRawDateSerialiser.LongLess(a, b)
      ensures ByteLess(Encode(a), Encode(b))
    {
      ToBigEndianMonotonic(a + Offset, b + Offset, Width);
    }
  }

  /**
    With this long serialiser as the delegate, the date serialiser
    round-trips and preserves order: the conclusions of the date lemmas hold
    for at least one delegate.
  */
  lemma ExampleDateSerialiser()
    ensures RoundTrips(OrderedRawDateSerialiser.DateSerialiser(LongSerialiser()))
    ensures PreservesOrder(OrderedRawDateSerialiser.DateSerialiser(LongSerialiser()), OrderedRawDateSerialiser.Before)
  {
    ExampleRoundTrips();
    ExamplePreservesOrder();
    OrderedRawDateSerialiser.InheritsRoundTrip(LongSerialiser());
    OrderedRawDateSerialiser.DeclaredOrderingHolds(LongSerialiser());
  }
}
