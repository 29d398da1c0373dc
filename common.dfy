/** Small shared vocabulary of the pppd model. */
module Common {

  /** A C pointer that may be NULL. */
  datatype Option<+T> = None | Some(value: T)

  /** An octet of a received frame. */
  newtype byte = x: int | 0 <= x < 256

  /** The identity of a C function pointer; callbacks are only ever compared and invoked. */
  type FuncId = int

  /** The identity of the `void *` argument stored beside a callback. */
  type ArgId = int

  /** A sequence is the part before index `k`, the element at `k`, and the part after it. */
  lemma SeqAround<T>(s: seq<T>, k: nat)
    requires k < |s|
    ensures s == s[..k] + ([s[k]] + s[k + 1..])
  {
  }

  /** Concatenation is associative. */
  lemma SeqAssoc<T>(a: seq<T>, b: seq<T>, c: seq<T>)
    ensures a + (b + c) == a + b + c
  {
  }

  /** Adding one copy of `x` and taking it out again changes nothing. */
  lemma MultisetCancel<T>(x: T, m: multiset<T>)
    ensures (multiset{x} + m) - multiset{x} == m
  {
    var r := (multiset{x} + m) - multiset{x};
    forall y ensures r[y] == m[y] {
      if y == x {
        assert r[y] == m[y] + 1 - 1;
      }
    }
  }

  /** Taking an element out of the middle of a sequence takes one copy of it out of the multiset. */
  lemma MultisetAround<T>(a: seq<T>, v: T, c: seq<T>)
    ensures multiset(a + ([v] + c)) == multiset(a + c) + multiset{v}
  {
    assert multiset(a + ([v] + c)) == multiset(a) + multiset([v] + c);
    assert multiset([v] + c) == multiset{v} + multiset(c);
    assert multiset(a + c) == multiset(a) + multiset(c);
  }

  /** Moving the middle part of a sequence to the end keeps its multiset. */
  lemma MultisetMiddle<T>(x: seq<T>, y: seq<T>, z: seq<T>)
    ensures multiset(x + y + z) == multiset(x + z) + multiset(y)
  {
    calc {
      multiset(x + y + z);
      multiset(x + y) + multiset(z);
      multiset(x) + multiset(y) + multiset(z);
      multiset(x + z) + multiset(y);
    }
  }

  /** A sequence is a prefix of whatever its extension is a prefix of. */
  lemma PrefixOfExtension<T>(a: seq<T>, x: T, b: seq<T>)
    requires a + [x] <= b
    ensures a <= b
  {
    assert a == (a + [x])[..|a|];
  }
}
