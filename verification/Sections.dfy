/** Sections: data followed by its length, so that a reader works backwards from the end. The contract side
    encodes and splits; the host side decodes. */
module Sections {
  import opened Wrappers
  import opened Bytes
  import opened Seqs

  const U32_LIMIT := 0x1_0000_0000

  const NO_LENGTH := Panic("Cannot read section length")
  const BAD_LENGTH := Panic("section length exceeds the data")
  const TOO_LONG := Panic("Input exceeds u32 range")

  function BigEndian(n: nat): (r: Bytes)
    requires n < U32_LIMIT
    ensures |r| == 4
  {
    [(n / 0x100_0000) as byte, (n / 0x1_0000 % 256) as byte, (n / 256 % 256) as byte, (n % 256) as byte]
  }

  function FromBigEndian(b: Bytes): (n: nat)
    requires |b| == 4
    ensures n < U32_LIMIT
  {
    b[0] as int * 0x100_0000 + b[1] as int * 0x1_0000 + b[2] as int * 256 + b[3] as int
  }

  lemma BigEndianRoundTrip(n: nat, b: Bytes)
    requires n < U32_LIMIT && |b| == 4
    ensures FromBigEndian(BigEndian(n)) == n
    ensures BigEndian(FromBigEndian(b)) == b
  {
    assert n == n / 256 * 256 + n % 256;
    assert n / 256 == n / 0x1_0000 * 256 + n / 256 % 256;
    assert n / 0x1_0000 == n / 0x100_0000 * 256 + n / 0x1_0000 % 256;
    var x := FromBigEndian(b);
    assert x / 0x100_0000 == b[0] as int;
    assert x / 0x1_0000 == b[0] as int * 256 + b[1] as int;
    assert x / 256 == b[0] as int * 0x1_0000 + b[1] as int * 256 + b[2] as int;
  }

  predicate AllShort(xs: seq<Bytes>) {
    forall i | 0 <= i < |xs| :: |xs[i]| < U32_LIMIT
  }

  function Encoded(xs: seq<Bytes>): Bytes
    requires AllShort(xs)
  {
    if xs == [] then []
    else
      var n := |xs| - 1;
      Encoded(xs[..n]) + xs[n] + BigEndian(|xs[n]|)
  }

  function TotalLength(xs: seq<Bytes>): nat {
    if xs == [] then 0 else TotalLength(xs[..|xs| - 1]) + |xs[|xs| - 1]| + 4
  }

  /** The length is the sum of the section lengths plus four per section, and is reserved exactly. */
  method EncodeSections(sections: seq<Bytes>) returns (r: Result<Bytes>, capacity: nat)
    ensures AllShort(sections) ==> r == Ok(Encoded(sections)) && |r.value| == capacity == TotalLength(sections)
    ensures !AllShort(sections) ==> r == Err(TOO_LONG)
  {
    capacity := 0;
    for i := 0 to |sections|
      invariant capacity + 4 * i == TotalLength(sections[..i])
    {
      assert sections[..i + 1][..i] == sections[..i];
      capacity := capacity + |sections[i]|;
    }
    assert sections[..|sections|] == sections;
    capacity := capacity + 4 * |sections|;
    var out := [];
    for i := 0 to |sections|
      invariant AllShort(sections[..i]) && out == Encoded(sections[..i]) && |out| == TotalLength(sections[..i])
    {
      if |sections[i]| >= U32_LIMIT {
        return Err(TOO_LONG), capacity;
      }
      assert sections[..i + 1][..i] == sections[..i];
      out := out + sections[i];
      out := out + BigEndian(|sections[i]|);
    }
    return Ok(out), capacity;
  }

  /** The last section and what precedes it. */
  function Split(data: Bytes): Result<(Bytes, Bytes)> {
    if |data| < 4 then Err(NO_LENGTH)
    else
      var n := |data| - 4;
      var tailLen := FromBigEndian(data[n..]);
      if tailLen > n then Err(BAD_LENGTH) else Ok((data[..n - tailLen], data[n - tailLen..n]))
  }

  method SplitTail(data: Bytes) returns (r: Result<(Bytes, Bytes)>)
    ensures r == Split(data)
  {
    if |data| < 4 {
      return Err(NO_LENGTH);
    }
    var tailLen := FromBigEndian([data[|data| - 4], data[|data| - 3], data[|data| - 2], data[|data| - 1]]);
    assert data[|data| - 4..] == [data[|data| - 4], data[|data| - 3], data[|data| - 2], data[|data| - 1]];
    var restLenEnd := |data| - 4 - tailLen;
    if restLenEnd < 0 {
      return Err(BAD_LENGTH);
    }
    var rest, tail := [], data;
    if restLenEnd != 0 {
      rest, tail := data[..restLenEnd], data[restLenEnd..];
    }
    tail := tail[..tailLen];
    assert rest == data[..restLenEnd] && tail == data[restLenEnd..|data| - 4];
    return Ok((rest, tail));
  }

  /** Splitting succeeds exactly on data that ends in a section, and then takes that section off. */
  lemma SplitExact(data: Bytes, rest: Bytes, tail: Bytes)
    ensures Split(data) == Ok((rest, tail)) <==>
            |tail| < U32_LIMIT && data == rest + tail + BigEndian(|tail|)
  {
    if Split(data) == Ok((rest, tail)) {
      var n := |data| - 4;
      BigEndianRoundTrip(0, data[n..]);
      assert data == data[..n - |tail|] + data[n - |tail|..n] + data[n..];
    }
    if |tail| < U32_LIMIT && data == rest + tail + BigEndian(|tail|) {
      BigEndianRoundTrip(|tail|, BigEndian(|tail|));
      var n := |data| - 4;
      assert data[n..] == BigEndian(|tail|) && data[n - |tail|..n] == tail && data[..n - |tail|] == rest;
    }
  }

  function DecodeSections2(data: Bytes): Result<(Bytes, Bytes)> {
    var (rest, second) :- Split(data);
    var (_, first) :- Split(rest);
    Ok((first, second))
  }

  lemma {:induction false} EncodedSnoc(xs: seq<Bytes>, x: Bytes)
    requires AllShort(xs + [x])
    ensures AllShort(xs) && |x| < U32_LIMIT
    ensures Encoded(xs + [x]) == Encoded(xs) + x + BigEndian(|x|)
  {
    var s := xs + [x];
    assert s[|xs|] == x && s[..|xs|] == xs;
    assert forall i | 0 <= i < |xs| :: xs[i] == s[i];
  }

  /** The two-section decoder inverts every encoding of two sections. */
  lemma Decode2Inverts(a: Bytes, b: Bytes)
    requires |a| < U32_LIMIT && |b| < U32_LIMIT
    ensures DecodeSections2(Encoded([a, b])) == Ok((a, b))
  {
    assert [a, b] == [a] + [b] && [a] == [] + [a];
    EncodedSnoc([a], b);
    EncodedSnoc([], a);
    SplitExact(Encoded([a, b]), Encoded([a]), b);
    SplitExact(Encoded([a]), [], a);
  }

  /** The host's decoder, from the end; up to three bytes in front of the first section are ignored. */
  function Decoded(data: Bytes): Result<seq<Bytes>>
    decreases |data|
  {
    if |data| < 4 then Ok([])
    else
      var (rest, tail) :- Split(data);
      var front :- Decoded(rest);
      Ok(front + [tail])
  }

  method DecodeSections(data: Bytes) returns (r: Result<seq<Bytes>>)
    ensures r == Decoded(data)
  {
    var pushed: seq<Bytes> := [];
    var remaining := |data|;
    assert data[..remaining] == data;
    assert Decoded(data).Ok? ==> Decoded(data).value == Decoded(data).value + Reverse([]);
    while remaining >= 4
      invariant 0 <= remaining <= |data|
      invariant var d := Decoded(data[..remaining]);
                Decoded(data) == if d.Ok? then Ok(d.value + Reverse(pushed)) else d
    {
      var head := data[..remaining];
      var suffix := [data[remaining - 4], data[remaining - 3], data[remaining - 2], data[remaining - 1]];
      var tailLen := FromBigEndian(suffix);
      assert head[remaining - 4..] == suffix;
      if tailLen > remaining - 4 {
        return Err(BAD_LENGTH);
      }
      var tail := data[remaining - 4 - tailLen..remaining - 4];
      assert head[remaining - 4 - tailLen..remaining - 4] == tail;
      assert Split(head) == Ok((head[..remaining - 4 - tailLen], tail));
      assert head[..remaining - 4 - tailLen] == data[..remaining - 4 - tailLen];
      ReverseSnoc(pushed, tail);
      ghost var front := Decoded(data[..remaining - 4 - tailLen]);
      if front.Ok? {
        assert front.value + [tail] + Reverse(pushed) == front.value + Reverse(pushed + [tail]);
      }
      pushed := pushed + [tail];
      remaining := remaining - 4 - tailLen;
    }
    assert [] + Reverse(pushed) == Reverse(pushed);
    return Ok(Reverse(pushed));
  }

  /** Host and contract agree: decoding gives back every list of sections, with up to three stray bytes in
      front. */
  lemma {:induction false} DecodeEncode(junk: Bytes, xs: seq<Bytes>)
    requires |junk| < 4 && AllShort(xs)
    ensures Decoded(junk + Encoded(xs)) == Ok(xs)
    decreases |xs|
  {
    if xs == [] {
      assert junk + [] == junk;
    } else {
      var n := |xs| - 1;
      var rest := junk + Encoded(xs[..n]);
      assert xs == xs[..n] + [xs[n]];
      JoinSnoc(junk, xs[..n], xs[n]);
      SplitExact(junk + Encoded(xs), rest, xs[n]);
      DecodeEncode(junk, xs[..n]);
    }
  }

  /** And nothing else decodes: whatever the host accepts is such an encoding. */
  lemma {:induction false} DecodeSound(data: Bytes) returns (junk: Bytes)
    requires Decoded(data).Ok?
    ensures AllShort(Decoded(data).value) && |junk| < 4
    ensures data == junk + Encoded(Decoded(data).value)
    decreases |data|
  {
    if |data| < 4 {
      junk := data;
      assert junk + [] == junk;
    } else {
      var (rest, tail) := Split(data).value;
      SplitExact(data, rest, tail);
      junk := DecodeSound(rest);
      JoinSnoc(junk, Decoded(rest).value, tail);
    }
  }

  lemma JoinSnoc(junk: Bytes, front: seq<Bytes>, tail: Bytes)
    requires AllShort(front) && |tail| < U32_LIMIT
    ensures AllShort(front + [tail])
    ensures junk + Encoded(front + [tail]) == junk + Encoded(front) + tail + BigEndian(|tail|)
  {
    EncodedSnoc(front, tail);
    assert junk + (Encoded(front) + tail + BigEndian(|tail|)) == junk + Encoded(front) + tail + BigEndian(|tail|);
  }

  /** Different lists of sections have different encodings. */
  lemma EncodingInjective(xs: seq<Bytes>, ys: seq<Bytes>)
    requires AllShort(xs) && AllShort(ys) && Encoded(xs) == Encoded(ys)
    ensures xs == ys
  {
    DecodeEncode([], xs);
    DecodeEncode([], ys);
    assert [] + Encoded(xs) == Encoded(xs) && [] + Encoded(ys) == Encoded(ys);
  }
}
