/** The mock address codec: pad, rotate by the digit sum, and shuffle. Decoding shuffles on until the deck is
    back in order, rotates back and drops the padding. */
module MockApi {
  import opened Wrappers
  import opened Bytes

  const CANONICAL_LENGTH := 54
  const SHUFFLES_ENCODE := 18
  const SHUFFLES_DECODE := 2

  /** The length of canonical addresses and the number of shuffles on each side. */
  datatype Api = Api(canonicalLength: nat, encode: nat, decode: nat)

  const DEFAULT := Api(CANONICAL_LENGTH, SHUFFLES_ENCODE, SHUFFLES_DECODE)

  const ODD_DECK := Panic("Method only defined for even number of elements")

  // ----- shuffling -----

  /** The perfect in-shuffle of an even deck: the right half's cards come first in each pair. */
  function Shuffle<T>(s: seq<T>): seq<T>
    requires |s| % 2 == 0
  {
    seq(|s|, i requires 0 <= i < |s| => if i % 2 == 0 then s[|s| / 2 + i / 2] else s[i / 2])
  }

  function Shuffles<T>(s: seq<T>, k: nat): (r: seq<T>)
    requires |s| % 2 == 0
    ensures |r| == |s|
    decreases k
  {
    if k == 0 then s else Shuffles(Shuffle(s), k - 1)
  }

  method RiffleShuffle<T>(input: seq<T>) returns (r: Result<seq<T>>)
    ensures |input| % 2 == 0 ==> r == Ok(Shuffle(input))
    ensures |input| % 2 != 0 ==> r == Err(ODD_DECK)
  {
    if |input| % 2 != 0 {
      return Err(ODD_DECK);
    }
    var mid := |input| / 2;
    var left, right := input[..mid], input[mid..];
    var out := [];
    for i := 0 to mid
      invariant |out| == 2 * i
      invariant forall j | 0 <= j < 2 * i :: out[j] == if j % 2 == 0 then input[mid + j / 2] else input[j / 2]
    {
      out := out + [right[i]];
      out := out + [left[i]];
    }
    assert out == Shuffle(input);
    return Ok(out);
  }

  function Pow2(k: nat): nat {
    if k == 0 then 1 else 2 * Pow2(k - 1)
  }

  /** Where a card at 1-based position p goes in a deck of n. */
  function Target(p: nat, n: nat): (q: nat)
    requires n % 2 == 0 && 1 <= p <= n
    ensures 1 <= q <= n
  {
    if 2 * p <= n then 2 * p else 2 * p - (n + 1)
  }

  function Track(p: nat, n: nat, k: nat): (q: nat)
    requires n % 2 == 0 && 1 <= p <= n
    ensures 1 <= q <= n
    decreases k
  {
    if k == 0 then p else Track(Target(p, n), n, k - 1)
  }

  lemma ShuffleMoves<T>(s: seq<T>, p: nat)
    requires |s| % 2 == 0 && 1 <= p <= |s|
    ensures Shuffle(s)[Target(p, |s|) - 1] == s[p - 1]
  {
  }

  lemma {:induction false} ShufflesMove<T>(s: seq<T>, p: nat, k: nat)
    requires |s| % 2 == 0 && 1 <= p <= |s|
    ensures Shuffles(s, k)[Track(p, |s|, k) - 1] == s[p - 1]
    decreases k
  {
    if k > 0 {
      ShuffleMoves(s, p);
      ShufflesMove(Shuffle(s), Target(p, |s|), k - 1);
    }
  }

  lemma MulAtLeast(m: int, d: int)
    requires m > 0
    ensures d >= 1 ==> m * d >= m
    ensures d <= -1 ==> m * d <= -m
  {
    if d >= 1 {
      assert m * (d - 1) >= 0;
    } else if d <= -1 {
      assert m * (-1 - d) >= 0;
    }
  }

  lemma ModUnique(x: int, q: int, r: int, m: int)
    requires m > 0 && 0 <= r < m && x == m * q + r
    ensures x % m == r
  {
    var d := q - x / m;
    assert m * d == x % m - r;
    MulAtLeast(m, d);
  }

  /** Reducing a factor first does not change the remainder of a product. */
  lemma ModFactor(a: nat, b: nat, m: nat)
    requires m > 0
    ensures (a % m) * b % m == a * b % m
  {
    var q, r := a / m, a % m;
    var q1, r1 := r * b / m, r * b % m;
    assert r * b == m * q1 + r1;
    assert a * b == (m * q + r) * b == m * (q * b) + r * b == m * (q * b + q1) + r1;
    ModUnique(a * b, q * b + q1, r1, m);
  }

  /** k shuffles send position p to 2^k p modulo n + 1. */
  lemma {:induction false} TrackIsPower(p: nat, n: nat, k: nat)
    requires n % 2 == 0 && 1 <= p <= n
    ensures Track(p, n, k) == Pow2(k) * p % (n + 1)
    decreases k
  {
    if k == 0 {
      ModUnique(p, 0, p, n + 1);
      assert Pow2(k) * p == p;
    } else {
      TargetIsDouble(p, n);
      TrackIsPower(Target(p, n), n, k - 1);
      DoubleFirst(Pow2(k - 1), p, n + 1);
    }
  }

  lemma TargetIsDouble(p: nat, n: nat)
    requires n % 2 == 0 && 1 <= p <= n
    ensures Target(p, n) == 2 * p % (n + 1)
  {
    ModUnique(2 * p, if 2 * p <= n then 0 else 1, Target(p, n), n + 1);
  }

  lemma DoubleFirst(h: nat, p: nat, m: nat)
    requires m > 0
    ensures h * (2 * p % m) % m == 2 * h * p % m
  {
    ModFactor(2 * p, h, m);
    assert (2 * p % m) * h == h * (2 * p % m);
    assert 2 * p * h == 2 * h * p;
  }

  /** The position theorem of the in-shuffle, for every even deck and every number of shuffles. */
  lemma ShufflesPermute<T>(s: seq<T>, p: nat, k: nat)
    requires |s| % 2 == 0 && 1 <= p <= |s|
    ensures 1 <= Pow2(k) * p % (|s| + 1) <= |s|
    ensures Shuffles(s, k)[Pow2(k) * p % (|s| + 1) - 1] == s[p - 1]
  {
    TrackIsPower(p, |s|, k);
    ShufflesMove(s, p, k);
  }

  /** When 2^k is 1 modulo n + 1, k shuffles restore the deck. */
  lemma ShufflesRestore<T>(s: seq<T>, k: nat)
    requires |s| % 2 == 0 && Pow2(k) % (|s| + 1) == 1
    ensures Shuffles(s, k) == s
  {
    forall i | 0 <= i < |s| ensures Shuffles(s, k)[i] == s[i] {
      PositionRestored(Pow2(k), i + 1, |s| + 1);
      ShufflesPermute(s, i + 1, k);
    }
  }

  lemma PositionRestored(h: nat, p: nat, m: nat)
    requires 1 <= p < m && h % m == 1
    ensures h * p % m == p
  {
    ModFactor(h, p, m);
    ModUnique(p, 0, p, m);
  }

  /** And only then: a deck of distinct cards is restored by k shuffles exactly when 2^k is 1 modulo n + 1. */
  lemma RestoredIff<T>(s: seq<T>, k: nat)
    requires |s| % 2 == 0 && |s| >= 2
    requires forall i, j | 0 <= i < j < |s| :: s[i] != s[j]
    ensures Shuffles(s, k) == s <==> Pow2(k) % (|s| + 1) == 1
  {
    if Pow2(k) % (|s| + 1) == 1 {
      ShufflesRestore(s, k);
    } else {
      ShufflesPermute(s, 1, k);
      assert Pow2(k) * 1 == Pow2(k);
      var q := Pow2(k) % (|s| + 1);
      assert s[0] != s[q - 1];
    }
  }

  lemma {:induction false} ShufflesAdd<T>(s: seq<T>, j: nat, k: nat)
    requires |s| % 2 == 0
    ensures Shuffles(Shuffles(s, j), k) == Shuffles(s, j + k)
    decreases j
  {
    if j > 0 {
      ShufflesAdd(Shuffle(s), j - 1, k);
    }
  }

  // ----- the codec -----

  function DigitSum(s: Bytes): nat {
    if s == [] then 0 else s[0] as int + DigitSum(s[1..])
  }

  function RotateLeft(s: Bytes, k: nat): Bytes
    requires k <= |s|
  {
    s[k..] + s[..k]
  }

  function RotateRight(s: Bytes, k: nat): Bytes
    requires k <= |s|
  {
    s[|s| - k..] + s[..|s| - k]
  }

  function Zeros(n: nat): Bytes {
    seq(n, _ => 0)
  }

  function DropZeros(s: Bytes): Bytes {
    if s == [] then [] else (if s[0] != 0 then [s[0]] else []) + DropZeros(s[1..])
  }

  /** The content-dependent rotation. */
  function Offset(s: Bytes): (k: nat)
    requires s != []
    ensures k < |s|
  {
    DigitSum(s) % |s|
  }

  function Canonicalize(api: Api, human: Bytes): Result<Bytes> {
    if |human| < 3 then Err(Generic("Invalid input: human address too short"))
    else if |human| > api.canonicalLength then Err(Generic("Invalid input: human address too long"))
    else
      var padded := human + Zeros(api.canonicalLength - |human|);
      if api.canonicalLength % 2 != 0 && api.encode > 0 then Err(ODD_DECK)
      else Ok(ShufflesOf(RotateLeft(padded, Offset(padded)), api.encode))
  }

  function ShufflesOf<T>(s: seq<T>, k: nat): seq<T>
    requires |s| % 2 == 0 || k == 0
  {
    if k == 0 then s else Shuffles(s, k)
  }

  /** `utf8` says which byte strings decode to text. */
  function Humanize(api: Api, canonical: Bytes, utf8: Bytes -> bool): Result<Bytes> {
    if |canonical| != api.canonicalLength then Err(Generic("Invalid input: canonical address length not correct"))
    else if api.canonicalLength % 2 != 0 && api.decode > 0 then Err(ODD_DECK)
    else
      var tmp := ShufflesOf(canonical, api.decode);
      if tmp == [] then Err(Panic("attempt to calculate the remainder with a divisor of zero"))
      else
        var trimmed := DropZeros(RotateRight(tmp, Offset(tmp)));
        if utf8(trimmed) then Ok(trimmed) else Err(Generic("invalid utf-8"))
  }

  method ShuffleTimes(input: Bytes, times: nat) returns (r: Result<Bytes>)
    ensures |input| % 2 == 0 || times == 0 ==> r == Ok(ShufflesOf(input, times))
    ensures |input| % 2 != 0 && times > 0 ==> r == Err(ODD_DECK)
  {
    var out := input;
    for i := 0 to times
      invariant |out| == |input|
      invariant i > 0 ==> |input| % 2 == 0
      invariant out == ShufflesOf(input, i)
    {
      var shuffled := RiffleShuffle(out);
      if shuffled.Err? {
        return shuffled;
      }
      out := shuffled.value;
      ShufflesAdd(input, i, 1);
      assert Shuffles(Shuffles(input, i), 1) == Shuffles(Shuffle(Shuffles(input, i)), 0);
    }
    return Ok(out);
  }

  method AddrCanonicalize(api: Api, human: Bytes) returns (r: Result<Bytes>)
    ensures r == Canonicalize(api, human)
  {
    if |human| < 3 {
      return Err(Generic("Invalid input: human address too short"));
    }
    if |human| > api.canonicalLength {
      return Err(Generic("Invalid input: human address too long"));
    }
    var out := human + Zeros(api.canonicalLength - |human|);
    var rotateBy := DigitSum(out) % api.canonicalLength;
    out := RotateLeft(out, rotateBy);
    r := ShuffleTimes(out, api.encode);
  }

  method AddrHumanize(api: Api, canonical: Bytes, utf8: Bytes -> bool) returns (r: Result<Bytes>)
    ensures r == Humanize(api, canonical, utf8)
  {
    if |canonical| != api.canonicalLength {
      return Err(Generic("Invalid input: canonical address length not correct"));
    }
    var shuffled := ShuffleTimes(canonical, api.decode);
    if shuffled.Err? {
      return shuffled;
    }
    var tmp := shuffled.value;
    if tmp == [] {
      return Err(Panic("attempt to calculate the remainder with a divisor of zero"));
    }
    var rotateBy := DigitSum(tmp) % |tmp|;
    tmp := RotateRight(tmp, rotateBy);
    var trimmed := DropZeros(tmp);
    return if utf8(trimmed) then Ok(trimmed) else Err(Generic("invalid utf-8"));
  }

  // ----- the round trip -----

  lemma {:induction false} DigitSumAppend(a: Bytes, b: Bytes)
    ensures DigitSum(a + b) == DigitSum(a) + DigitSum(b)
  {
    if a == [] {
      assert a + b == b;
    } else {
      assert (a + b)[1..] == a[1..] + b;
      DigitSumAppend(a[1..], b);
    }
  }

  lemma RotationKeepsSum(s: Bytes, k: nat)
    requires k <= |s|
    ensures DigitSum(RotateLeft(s, k)) == DigitSum(s)
  {
    var a, b := s[..k], s[k..];
    DigitSumAppend(b, a);
    DigitSumAppend(a, b);
    assert s == a + b;
  }

  lemma RotationKeepsOffset(s: Bytes, k: nat)
    requires k <= |s| && s != []
    ensures |RotateLeft(s, k)| == |s| && Offset(RotateLeft(s, k)) == Offset(s)
  {
    RotationKeepsSum(s, k);
  }

  lemma RotateBack(s: Bytes, k: nat)
    requires k <= |s|
    ensures RotateRight(RotateLeft(s, k), k) == s
  {
    var r := RotateLeft(s, k);
    assert r[|s| - k..] == s[..k] && r[..|s| - k] == s[k..];
  }

  lemma {:induction false} DropZerosAppend(a: Bytes, b: Bytes)
    ensures DropZeros(a + b) == DropZeros(a) + DropZeros(b)
  {
    if a == [] {
      assert a + b == b;
    } else {
      assert (a + b)[1..] == a[1..] + b;
      DropZerosAppend(a[1..], b);
    }
  }

  lemma {:induction false} DropZerosOfZeros(n: nat)
    ensures DropZeros(Zeros(n)) == []
  {
    if n > 0 {
      assert Zeros(n)[1..] == Zeros(n - 1);
      DropZerosOfZeros(n - 1);
    }
  }

  /** Dropping zeros keeps a string exactly when it has none, and never makes it longer. */
  lemma {:induction false} DropZerosIff(s: Bytes)
    ensures |DropZeros(s)| <= |s|
    ensures DropZeros(s) == s <==> 0 !in s
    ensures 0 in s ==> |DropZeros(s)| < |s|
  {
    if s != [] {
      DropZerosIff(s[1..]);
      assert s == [s[0]] + s[1..];
    }
  }

  /** The deck is even and the shuffles of both sides together restore it. */
  ghost predicate Restorable(api: Api) {
    api.canonicalLength % 2 == 0 && Pow2(api.encode + api.decode) % (api.canonicalLength + 1) == 1
  }

  /** 2^20 is 1 modulo 55, so the default codec is restorable. */
  lemma DefaultRestorable()
    ensures Restorable(DEFAULT)
  {
    assert Pow2(5) == 32;
    assert Pow2(10) == 1024;
    assert Pow2(15) == 32768;
    assert Pow2(20) == 1048576;
  }

  lemma DeckRestored(api: Api, s: Bytes)
    requires Restorable(api) && |s| == api.canonicalLength
    ensures |ShufflesOf(s, api.encode)| == |s|
    ensures ShufflesOf(ShufflesOf(s, api.encode), api.decode) == s
  {
    ShufflesAdd(s, api.encode, api.decode);
    ShufflesRestore(s, api.encode + api.decode);
  }

  /** Decoding an encoded address gives the address without its NUL bytes. */
  lemma DecodeEncode(api: Api, human: Bytes, utf8: Bytes -> bool)
    requires Restorable(api) && 3 <= |human| <= api.canonicalLength
    ensures Canonicalize(api, human).Ok?
    ensures var trimmed := DropZeros(human);
            Humanize(api, Canonicalize(api, human).value, utf8)
            == if utf8(trimmed) then Ok(trimmed) else Err(Generic("invalid utf-8"))
  {
    var padded := human + Zeros(api.canonicalLength - |human|);
    var k := Offset(padded);
    var rotated := RotateLeft(padded, k);
    DeckRestored(api, rotated);
    RotationKeepsOffset(padded, k);
    HumanizeDeck(api, ShufflesOf(rotated, api.encode), rotated, utf8);
    UnrotatePadded(human, api.canonicalLength - |human|, k);
  }

  lemma HumanizeDeck(api: Api, canonical: Bytes, deck: Bytes, utf8: Bytes -> bool)
    requires |canonical| == api.canonicalLength == |deck| > 0 && api.canonicalLength % 2 == 0
    requires ShufflesOf(canonical, api.decode) == deck
    ensures var trimmed := DropZeros(RotateRight(deck, Offset(deck)));
            Humanize(api, canonical, utf8) == if utf8(trimmed) then Ok(trimmed) else Err(Generic("invalid utf-8"))
  {
  }

  lemma UnrotatePadded(human: Bytes, n: nat, k: nat)
    requires k <= |human| + n
    ensures DropZeros(RotateRight(RotateLeft(human + Zeros(n), k), k)) == DropZeros(human)
  {
    RotateBack(human + Zeros(n), k);
    DropZerosAppend(human, Zeros(n));
    DropZerosOfZeros(n);
  }

  /** For every restorable codec and every text of 3 bytes up to the canonical length: encoding then decoding
      gives it back if and only if it has no NUL byte. */
  lemma RoundTripIff(api: Api, human: Bytes, utf8: Bytes -> bool)
    requires Restorable(api) && 3 <= |human| <= api.canonicalLength && utf8(human)
    ensures Canonicalize(api, human).Ok?
    ensures Humanize(api, Canonicalize(api, human).value, utf8) == Ok(human) <==> 0 !in human
  {
    DecodeEncode(api, human, utf8);
    DropZerosIff(human);
  }

  /** An address with a NUL byte loses it. */
  lemma NulAddressIsLost(utf8: Bytes -> bool)
    requires utf8([97, 0, 98])
    ensures Canonicalize(DEFAULT, [97, 0, 98]).Ok?
    ensures Humanize(DEFAULT, Canonicalize(DEFAULT, [97, 0, 98]).value, utf8) != Ok([97, 0, 98])
  {
    DefaultRestorable();
    var human: Bytes := [97, 0, 98];
    assert human[1] == 0;
    RoundTripIff(DEFAULT, human, utf8);
  }

  /** The default codec: exactly 3 to 54 bytes are accepted, and NUL-free addresses come back unchanged and
      never share a canonical form. */
  lemma DefaultRoundTrip(a: Bytes, b: Bytes, utf8: Bytes -> bool)
    requires utf8(a) && utf8(b) && 0 !in a && 0 !in b
    ensures Canonicalize(DEFAULT, a).Ok? <==> 3 <= |a| <= CANONICAL_LENGTH
    ensures Canonicalize(DEFAULT, a).Ok? ==> Humanize(DEFAULT, Canonicalize(DEFAULT, a).value, utf8) == Ok(a)
    ensures Canonicalize(DEFAULT, a).Ok? && Canonicalize(DEFAULT, a) == Canonicalize(DEFAULT, b) ==> a == b
  {
    DefaultRestorable();
    RoundTrip(DEFAULT, a, utf8);
    RoundTrip(DEFAULT, b, utf8);
  }

  lemma RoundTrip(api: Api, human: Bytes, utf8: Bytes -> bool)
    requires Restorable(api) && utf8(human) && 0 !in human
    ensures Canonicalize(api, human).Ok? <==> 3 <= |human| <= api.canonicalLength
    ensures Canonicalize(api, human).Ok? ==> Humanize(api, Canonicalize(api, human).value, utf8) == Ok(human)
  {
    if 3 <= |human| <= api.canonicalLength {
      RoundTripIff(api, human, utf8);
    }
  }
}
