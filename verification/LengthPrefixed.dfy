/** Length-prefixed namespaces: a two byte big endian length, then the namespace itself. */
module LengthPrefixed {
  import opened Wrappers
  import opened Bytes

  const MAX_NAMESPACE := 0xFFFF

  predicate Fits(ns: Bytes) {
    |ns| <= MAX_NAMESPACE
  }

  predicate AllFit(xs: seq<Bytes>) {
    forall x | x in xs :: Fits(x)
  }

  function LengthBytes(n: nat): Bytes
    requires n <= MAX_NAMESPACE
  {
    [(n / 256) as byte, (n % 256) as byte]
  }

  function EncodeLength(ns: Bytes): Result<Bytes> {
    if |ns| > MAX_NAMESPACE then Err(Panic("only supports namespaces up to length 0xFFFF"))
    else Ok(LengthBytes(|ns|))
  }

  function ToLengthPrefixed(ns: Bytes): Result<Bytes> {
    var length :- EncodeLength(ns);
    Ok(length + ns)
  }

  /** The encoding of a namespace that fits. */
  function Enc(ns: Bytes): Bytes
    requires Fits(ns)
  {
    ToLengthPrefixed(ns).value
  }

  function EncNested(xs: seq<Bytes>): Bytes
    requires AllFit(xs)
  {
    if xs == [] then [] else Enc(xs[0]) + EncNested(xs[1..])
  }

  lemma {:induction false} EncNestedSnoc(xs: seq<Bytes>, x: Bytes)
    requires AllFit(xs + [x])
    ensures AllFit(xs) && Fits(x)
    ensures EncNested(xs + [x]) == EncNested(xs) + Enc(x)
  {
    assert x in xs + [x];
    assert forall y | y in xs :: y in xs + [x];
    if xs == [] {
      assert xs + [x] == [x];
      assert EncNested([]) == [];
      assert EncNested([x]) == Enc(x) + EncNested([]);
    } else {
      assert (xs + [x])[1..] == xs[1..] + [x];
      EncNestedSnoc(xs[1..], x);
    }
  }

  /** The nested encoding, with the capacity computed before anything is written. The first namespace that
      is too long makes it panic; otherwise the reserved capacity is used up exactly. */
  method ToLengthPrefixedNested(xs: seq<Bytes>) returns (r: Result<Bytes>, capacity: nat)
    ensures r.Ok? <==> AllFit(xs)
    ensures r.Ok? ==> r.value == EncNested(xs) && capacity == |r.value|
    ensures r.Err? ==> r.error.Panic?
  {
    capacity := 0;
    for i := 0 to |xs|
      invariant AllFit(xs[..i]) ==> capacity == |EncNested(xs[..i])|
    {
      capacity := capacity + |xs[i]| + 2;
      assert xs[..i + 1] == xs[..i] + [xs[i]];
      if AllFit(xs[..i + 1]) {
        EncNestedSnoc(xs[..i], xs[i]);
      }
    }
    var out := [];
    for i := 0 to |xs|
      invariant AllFit(xs[..i]) && out == EncNested(xs[..i])
    {
      var length := EncodeLength(xs[i]);
      if length.Err? {
        assert xs[i] in xs && !Fits(xs[i]);
        return Err(length.error), capacity;
      }
      out := out + length.value;
      out := out + xs[i];
      assert xs[..i + 1] == xs[..i] + [xs[i]];
      EncNestedSnoc(xs[..i], xs[i]);
    }
    assert xs[..|xs|] == xs;
    return Ok(out), capacity;
  }

  /** Two encodings that agree on as many bytes as the first has are encodings of the same namespace. */
  lemma EncCancel(x: Bytes, s: Bytes, y: Bytes, t: Bytes)
    requires Fits(x) && Fits(y)
    requires Enc(x) + s <= Enc(y) + t
    ensures x == y && s <= t
  {
    var a, b := Enc(x) + s, Enc(y) + t;
    assert a[0] == b[0] && a[1] == b[1];
    assert |x| == |y|;
    assert a[2..2 + |x|] == x && b[2..2 + |x|] == y;
    assert a[2 + |x|..] == s && b[2 + |x|..] == t;
  }

  /** A nested encoding starts another one exactly when its list of namespaces starts the other list. */
  lemma {:induction false} NestedPrefixIff(xs: seq<Bytes>, ys: seq<Bytes>)
    requires AllFit(xs) && AllFit(ys)
    ensures EncNested(xs) <= EncNested(ys) <==> xs <= ys
  {
    if xs == [] {
      assert EncNested(xs) == [];
    } else if ys == [] {
      assert EncNested(ys) == [] && |Enc(xs[0])| >= 2;
    } else {
      NestedPrefixIff(xs[1..], ys[1..]);
      if EncNested(xs) <= EncNested(ys) {
        EncCancel(xs[0], EncNested(xs[1..]), ys[0], EncNested(ys[1..]));
        assert xs == [xs[0]] + xs[1..] && ys == [ys[0]] + ys[1..];
      }
      if xs <= ys {
        assert xs[0] == ys[0] && xs[1..] == ys[1..|xs|] && ys[1..][..|xs| - 1] == ys[1..|xs|];
      }
    }
  }

  lemma CommonExtension(p: Bytes, k: Bytes, q: Bytes, l: Bytes)
    requires p + k == q + l
    ensures p <= q || q <= p
  {
    assert p == (p + k)[..|p|] && q == (q + l)[..|q|];
  }

  /** Keys under two distinct namespace lists of the same depth never collide. */
  lemma NoCollisions(xs: seq<Bytes>, ys: seq<Bytes>, k: Bytes, l: Bytes)
    requires AllFit(xs) && AllFit(ys)
    requires |xs| == |ys| && xs != ys
    ensures EncNested(xs) + k != EncNested(ys) + l
  {
    NestedPrefixIff(xs, ys);
    NestedPrefixIff(ys, xs);
    if EncNested(xs) + k == EncNested(ys) + l {
      CommonExtension(EncNested(xs), k, EncNested(ys), l);
    }
  }
}
