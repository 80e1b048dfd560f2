/** The end of a namespace's key range: the prefix incremented as a big endian number of the same length. */
module NamespaceHelpers {
  import opened Bytes
  import opened LengthPrefixed

  /** Every byte is 0xFF; vacuously true of the empty prefix. These are the prefixes without an upper bound. */
  predicate AllOnes(p: Bytes) {
    forall i | 0 <= i < |p| :: p[i] == 255
  }

  function UpperBound(p: Bytes): Bytes {
    if p == [] then []
    else
      var n := |p| - 1;
      if p[n] == 255 then UpperBound(p[..n]) + [0] else p[..n] + [p[n] + 1]
  }

  /** The byte that gets incremented: the last one that is not 0xFF. */
  function Pivot(p: Bytes): (i: nat)
    requires !AllOnes(p)
    ensures i < |p|
    ensures p[i] != 255 && AllOnes(p[i + 1..])
  {
    var n := |p| - 1;
    if p[n] == 255 then
      assert forall i | 0 <= i < n :: p[..n][i] == p[i];
      var i := Pivot(p[..n]);
      assert p[i + 1..] == p[..n][i + 1..] + [255];
      i
    else n
  }

  /** The in-place loop: zero the trailing 0xFF bytes of a copy, increment the first byte that is not one. */
  method NamespaceUpperBound(input: Bytes) returns (bound: Bytes)
    ensures bound == UpperBound(input)
  {
    var n := |input|;
    var copy := new byte[n](i requires 0 <= i < n => input[i]);
    var i := n;
    assert input[..n] == input && copy[n..] == [];
    while i > 0
      invariant 0 <= i <= n
      invariant copy[..i] == input[..i]
      invariant UpperBound(input) == UpperBound(input[..i]) + copy[i..]
    {
      i := i - 1;
      assert input[..i + 1][..i] == input[..i];
      assert copy[..i + 1][i] == input[..i + 1][i];
      if copy[i] == 255 {
        ghost var rest := copy[i + 1..];
        copy[i] := 0;
        assert copy[i..] == [0] + rest;
      } else {
        ghost var rest := copy[i + 1..];
        copy[i] := copy[i] + 1;
        assert copy[..] == input[..i] + [input[i] + 1] + rest;
        return copy[..];
      }
    }
    assert copy[..] == copy[0..];
    return copy[..];
  }

  /** Incrementing works on the tail alone whenever the tail can absorb it. */
  lemma {:induction false} UpperBoundAppend(a: Bytes, b: Bytes)
    requires !AllOnes(b)
    ensures !AllOnes(a + b)
    ensures UpperBound(a + b) == a + UpperBound(b)
    ensures Pivot(a + b) == |a| + Pivot(b)
  {
    var j :| 0 <= j < |b| && b[j] != 255;
    assert (a + b)[|a| + j] == b[j];
    var n := |b| - 1;
    assert (a + b)[..|a| + n] == a + b[..n];
    if b[n] == 255 {
      assert b[..n][j] != 255;
      UpperBoundAppend(a, b[..n]);
    }
  }

  lemma {:induction false} UpperBoundOfOnes(p: Bytes)
    requires AllOnes(p)
    ensures |UpperBound(p)| == |p|
    ensures forall i | 0 <= i < |p| :: UpperBound(p)[i] == 0
  {
    if p != [] {
      UpperBoundOfOnes(p[..|p| - 1]);
    }
  }

  /** The exact shape of the bound, in terms of the pivot. */
  lemma UpperBoundShape(p: Bytes)
    requires !AllOnes(p)
    ensures var i := Pivot(p);
            && |UpperBound(p)| == |p|
            && UpperBound(p)[..i] == p[..i]
            && UpperBound(p)[i] == p[i] + 1
            && forall j | i < j < |p| :: UpperBound(p)[j] == 0
  {
    var i := Pivot(p);
    var low := p[i + 1..];
    assert p == p[..i] + ([p[i]] + low);
    UpperBoundLead(p[i], low);
    assert ([p[i]] + low)[0] != 255;
    UpperBoundAppend(p[..i], [p[i]] + low);
    UpperBoundOfOnes(low);
  }

  lemma {:induction false} UpperBoundLead(x: byte, ones: Bytes)
    requires x != 255 && AllOnes(ones)
    ensures UpperBound([x] + ones) == [x + 1] + UpperBound(ones)
  {
    if ones != [] {
      var n := |ones| - 1;
      UpperBoundLead(x, ones[..n]);
      assert ([x] + ones)[..n + 1] == [x] + ones[..n];
    } else {
      assert [x] + ones == [x];
      assert [x][..0] + [x + 1] == [x + 1];
    }
  }

  lemma {:induction false} AtLeastOnes(ones: Bytes, k: Bytes)
    requires AllOnes(ones)
    ensures AtMost(ones, k) <==> ones <= k
  {
    if ones != [] && k != [] {
      AtLeastOnes(ones[1..], k[1..]);
      PrefixTail(ones, k);
    }
  }

  lemma {:induction false} BelowZeros(zeros: Bytes, k: Bytes)
    requires forall i | 0 <= i < |zeros| :: zeros[i] == 0
    ensures Less(k, zeros) <==> |k| < |zeros| && k <= zeros
  {
    if zeros != [] && k != [] {
      BelowZeros(zeros[1..], k[1..]);
      PrefixTail(k, zeros);
    }
  }

  /** Keys that lie below the bound without having the prefix: cut-off copies of the bound. */
  ghost predicate Spurious(p: Bytes, k: Bytes)
    requires !AllOnes(p)
  {
    Pivot(p) < |k| < |p| && k <= UpperBound(p)
  }

  lemma BoundExactLead(p: Bytes, bound: Bytes, k: Bytes)
    requires |p| == |bound| > 0
    requires AllOnes(p[1..]) && forall i | 0 <= i < |p| - 1 :: bound[1..][i] == 0
    requires p[0] != 255 && bound[0] == p[0] + 1
    ensures AtMost(p, k) && Less(k, bound) <==> p <= k || (0 < |k| < |p| && k <= bound)
  {
    if k != [] {
      AtLeastOnes(p[1..], k[1..]);
      BelowZeros(bound[1..], k[1..]);
      PrefixTail(p, k);
      PrefixTail(k, bound);
    }
  }

  /** A key lies in [p, upper bound) exactly when it has the prefix p or is one of the cut-off bounds. */
  lemma {:induction false} BoundExact(p: Bytes, k: Bytes)
    requires !AllOnes(p)
    ensures AtMost(p, k) && Less(k, UpperBound(p)) <==> p <= k || Spurious(p, k)
  {
    var low := p[1..];
    assert p == [p[0]] + low;
    UpperBoundShape(p);
    if AllOnes(low) {
      assert forall i | 1 <= i < |p| :: p[i] == low[i - 1];
      assert Pivot(p) == 0;
      BoundExactLead(p, UpperBound(p), k);
    } else {
      UpperBoundAppend([p[0]], low);
      var ub := UpperBound(low);
      assert UpperBound(p) == [p[0]] + ub && UpperBound(p)[1..] == ub;
      UpperBoundShape(low);
      if k != [] {
        BoundExact(low, k[1..]);
        PrefixTail(p, k);
        PrefixTail(k, UpperBound(p));
      }
    }
  }

  /** A cut-off bound sorts above every key that has the prefix. */
  lemma SpuriousAbove(p: Bytes, k: Bytes, s: Bytes)
    requires !AllOnes(p) && Spurious(p, k)
    ensures Less(p + s, k)
  {
    BoundExact(p, k);
    LessTotal(p + s, k);
    assert p + [] == p;
    if Less(k, p + s) {
      BetweenSharesPrefix(p, [], s, k);
    }
  }

  // ----- namespaces -----

  function DeclaredLength(k: Bytes): nat
    requires |k| >= 2
  {
    256 * (k[0] as int) + (k[1] as int)
  }

  /** The key starts with a complete length-prefixed namespace. */
  predicate Namespaced(k: Bytes) {
    |k| >= 2 && |k| >= 2 + DeclaredLength(k)
  }

  lemma EncNamespaced(ns: Bytes, k: Bytes)
    requires Fits(ns)
    ensures Namespaced(Enc(ns) + k)
  {
    var e := Enc(ns) + k;
    assert e[0] == (|ns| / 256) as byte && e[1] == (|ns| % 256) as byte;
  }

  /** Cut-off bounds of a namespace declare more bytes than they have. */
  lemma SpuriousNotNamespaced(ns: Bytes, k: Bytes)
    requires Fits(ns) && !AllOnes(Enc(ns))
    requires Spurious(Enc(ns), k)
    ensures !Namespaced(k)
  {
    var p := Enc(ns);
    var i := Pivot(p);
    UpperBoundShape(p);
    var ub := UpperBound(p);
    assert p[0] == (|ns| / 256) as byte && p[1] == (|ns| % 256) as byte;
    assert forall j | 0 <= j < i :: ub[j] == ub[..i][j] && p[j] == p[..i][j];
    if |k| >= 2 {
      assert k[0] == ub[0] && k[1] == ub[1];
      if i == 0 {
        assert p[1..][0] == 255;
        assert DeclaredLength(k) == |ns| + 1;
      }
    }
  }

  /** The only namespace without an upper bound is 0xFFFF bytes of 0xFF. */
  lemma AllOnesNamespace(ns: Bytes)
    requires Fits(ns)
    ensures AllOnes(Enc(ns)) <==> |ns| == MAX_NAMESPACE && AllOnes(ns)
  {
    var p := Enc(ns);
    assert p[0] == (|ns| / 256) as byte && p[1] == (|ns| % 256) as byte;
    assert forall i | 0 <= i < |ns| :: p[i + 2] == ns[i];
    assert forall i | 2 <= i < |p| :: p[i] == ns[i - 2];
  }
}
