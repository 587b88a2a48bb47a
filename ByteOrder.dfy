/**
  The order range-scan backends put on keys: byte arrays compared
  lexicographically, each byte read as unsigned, a proper prefix sorting first.
  The lemmas show that `ByteLess` is a strict total order (irreflexive,
  asymmetric, transitive, total), as an order on scan keys must be, and how
  it behaves when one byte is appended to each of two keys.
*/
module ByteOrder {

  /** A byte read as unsigned, the way the comparison reads it. */
  type Byte = b: int | 0 <= b < 256

  type Bytes = seq<Byte>

  /** `a` sorts strictly before `b`. */
  predicate ByteLess(a: Bytes, b: Bytes)
  {
    if |b| == 0 then false
    else if |a| == 0 then true
    else a[0] < b[0] || (a[0] == b[0] && ByteLess(a[1..], b[1..]))
  }

  lemma {:induction false} ByteLessIrreflexive(a: Bytes)
    ensures !ByteLess(a, a)
  {
    if |a| > 0 {
      ByteLessIrreflexive(a[1..]);
    }
  }

  lemma {:induction false} ByteLessAsymmetric(a: Bytes, b: Bytes)
    ensures ByteLess(a, b) ==> !ByteLess(b, a)
  {
    if |a| > 0 && |b| > 0 {
      ByteLessAsymmetric(a[1..], b[1..]);
    }
  }

  lemma {:induction false} ByteLessTransitive(a: Bytes, b: Bytes, c: Bytes)
    requires ByteLess(a, b) && ByteLess(b, c)
    ensures ByteLess(a, c)
  {
    if |a| > 0 && a[0] == b[0] && b[0] == c[0] {
      ByteLessTransitive(a[1..], b[1..], c[1..]);
    }
  }

  /** Any two different byte arrays are ordered one way or the other. */
  lemma {:induction false} ByteLessTotal(a: Bytes, b: Bytes)
    requires a != b
    ensures ByteLess(a, b) || ByteLess(b, a)
  {
    if |a| > 0 && |b| > 0 && a[0] == b[0] {
      assert a == [a[0]] + a[1..] && b == [b[0]] + b[1..];
      ByteLessTotal(a[1..], b[1..]);
    }
  }

  /** Appending one byte to each of two equal-length arrays keeps their order. */
  lemma {:induction false} ByteLessAppend(p: Bytes, q: Bytes, x: Byte, y: Byte)
    requires |p| == |q| && ByteLess(p, q)
    ensures ByteLess(p + [x], q + [y])
  {
    assert (p + [x])[1..] == p[1..] + [x];
    assert (q + [y])[1..] == q[1..] + [y];
    if p[0] == q[0] {
      ByteLessAppend(p[1..], q[1..], x, y);
    }
  }

  /** A common prefix followed by a smaller last byte sorts first. */
  lemma {:induction false} ByteLessLast(p: Bytes, x: Byte, y: Byte)
    requires x < y
    ensures ByteLess(p + [x], p + [y])
  {
    if |p| > 0 {
      assert (p + [x])[1..] == p[1..] + [x];
      assert (p + [y])[1..] == p[1..] + [y];
      ByteLessLast(p[1..], x, y);
    }
  }
}
