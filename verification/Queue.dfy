/** The queue contract: a first-in first-out queue kept in an ordered store under consecutive one-byte keys. */
module Queue {
  import opened Wrappers
  import opened Bytes
  import opened Seqs
  import opened OrderedMap
  import opened TypedStorage

  const I32_LIMIT := 0x8000_0000

  type I32 = x: int | -I32_LIMIT <= x < I32_LIMIT

  const KEY_OVERFLOW := Panic("attempt to add with overflow")
  const PARSE_PANIC := Panic("error in item")
  const SUM_OVERFLOW := Panic("attempt to add with overflow in sum")

  /** The queue: its items in order, and the key of the first one. */
  datatype Fifo = Fifo(first: nat, items: seq<I32>)

  predicate Fits(q: Fifo) {
    q.first + |q.items| <= 256
  }

  /** The store that holds a queue. */
  function Layout(c: Codec<I32>, q: Fifo): Records
    requires Fits(q)
  {
    seq(|q.items|, i requires 0 <= i < |q.items| => Record([(q.first + i) as byte], c.encode(q.items[i])))
  }

  lemma LayoutSorted(c: Codec<I32>, q: Fifo)
    requires Fits(q)
    ensures Sorted(Layout(c, q))
  {
  }

  // ----- what each operation does to the queue -----

  /** An empty queue starts over at key 0; behind key 255 there is no next key. */
  function Enqueued(q: Fifo, v: I32): Result<Fifo> {
    if q.items == [] then Ok(Fifo(0, [v]))
    else if q.first + |q.items| > 255 then Err(KEY_OVERFLOW)
    else Ok(q.(items := q.items + [v]))
  }

  function Dequeued(q: Fifo): Fifo {
    if q.items == [] then q else Fifo(q.first + 1, q.items[1..])
  }

  const MIGRATED := Fifo(0, [100, 101, 102])

  lemma {:induction false} PutLast(d: Records, k: Bytes, v: Bytes)
    requires forall r | r in d :: Less(r.key, k)
    ensures Put(d, k, v) == d + [Record(k, v)]
    decreases |d|
  {
    if d != [] {
      assert d[0] in d;
      LessAsymmetric(d[0].key, k);
      PutLast(d[1..], k, v);
      assert d == [d[0]] + d[1..];
    }
  }

  lemma LayoutEnqueue(c: Codec<I32>, q: Fifo, v: I32)
    requires Fits(q) && Enqueued(q, v).Ok?
    ensures var q' := Enqueued(q, v).value;
            Fits(q') && Put(Layout(c, q), [(q'.first + |q'.items| - 1) as byte], c.encode(v)) == Layout(c, q')
  {
    var q' := Enqueued(q, v).value;
    var k: Bytes := [(q'.first + |q'.items| - 1) as byte];
    forall r | r in Layout(c, q) ensures Less(r.key, k) {
    }
    PutLast(Layout(c, q), k, c.encode(v));
  }

  class Contract {
    const storage: MemoryStorage
    const codec: Codec<I32>

    constructor (storage: MemoryStorage, codec: Codec<I32>)
      ensures this.storage == storage && this.codec == codec
    {
      this.storage := storage;
      this.codec := codec;
    }

    ghost predicate Holds(q: Fifo)
      reads storage
    {
      Lawful(codec) && Fits(q) && storage.data == Layout(codec, q)
    }

    method Enqueue(v: I32, ghost q: Fifo) returns (r: Result<()>)
      requires Holds(q)
      modifies storage
      ensures var spec := Enqueued(q, v);
              if spec.Ok? then r == Ok(()) && Holds(spec.value) else r == Err(spec.error) && Holds(q)
    {
      LayoutSorted(codec, q);
      var items := Range(storage.data, None, None, Descending);
      RangeAll(storage.data);
      ReverseAt(storage.data);
      var newKey: byte := 0;
      if items != [] {
        if items[0].key[0] == 255 {
          return Err(KEY_OVERFLOW);
        }
        newKey := items[0].key[0] + 1;
      }
      LayoutEnqueue(codec, q, v);
      r := storage.Set([newKey], codec.encode(v));
    }

    method Dequeue(ghost q: Fifo) returns (value: Option<Bytes>)
      requires Holds(q)
      modifies storage
      ensures Holds(Dequeued(q))
      ensures value == if q.items == [] then None else Some(codec.encode(q.items[0]))
    {
      LayoutSorted(codec, q);
      var items := Range(storage.data, None, None, Ascending);
      RangeAll(storage.data);
      value := None;
      if items != [] {
        storage.Remove(items[0].key);
        assert storage.data == Layout(codec, Dequeued(q));
        value := Some(items[0].value);
      }
    }

    /** Clears the store whatever it holds, then writes three values. */
    method Migrate()
      requires Lawful(codec) && storage.Valid()
      modifies storage
      ensures Holds(MIGRATED)
    {
      var keys := Range(storage.data, None, None, Ascending);
      RangeAll(storage.data);
      for i := 0 to |keys|
        invariant storage.Valid() && storage.data == keys[i..]
      {
        storage.Remove(keys[i].key);
        assert keys[i..][1..] == keys[i + 1..];
      }
      assert Layout(codec, Fifo(0, [])) == [];
      var _ := Enqueue(100, Fifo(0, []));
      var _ := Enqueue(101, Fifo(0, [100]));
      assert [100] + [101] == [100, 101];
      var _ := Enqueue(102, Fifo(0, [100, 101]));
      assert [100, 101] + [102] == [100, 101, 102];
    }

    /** Any history of transactions on the store, with the answers of its dequeues. The store always holds the
        queue of that history; while no enqueue is attempted behind key 255 that is the ideal queue, and the
        answers are the ideal ones. */
    method Perform(ops: seq<Op>, ghost q: Fifo) returns (answers: seq<Option<Bytes>>)
      requires Holds(q)
      modifies storage
      ensures Holds(Run(q, ops)) && answers == Answers(codec, q, ops)
      ensures NeverFull(q, ops) ==>
                && Holds(Fifo(Run(q, ops).first, IdealRun(q.items, ops)))
                && answers == IdealAnswers(codec, q.items, ops)
    {
      answers := [];
      ghost var now := q;
      for i := 0 to |ops|
        invariant Holds(now)
        invariant Run(now, ops[i..]) == Run(q, ops)
        invariant answers + Answers(codec, now, ops[i..]) == Answers(codec, q, ops)
      {
        assert ops[i..][0] == ops[i] && ops[i..][1..] == ops[i + 1..];
        match ops[i] {
          case Enq(v) => var _ := Enqueue(v, now);
          case Deq =>
            var value := Dequeue(now);
            answers := answers + [value];
          case Mig =>
            LayoutSorted(codec, now);
            Migrate();
        }
        now := Apply(now, ops[i]);
      }
      RunIsFifo(codec, q, ops);
    }

    /** The number of records; on a queue, of items. */
    method QueryCount() returns (count: nat)
      ensures count == |storage.data|
      ensures forall q | Holds(q) :: count == |q.items|
    {
      RangeAll(storage.data);
      count := |Range(storage.data, None, None, Ascending)|;
    }

    /** For each item, the sum of the items above it, whatever the store holds. On a queue every record parses. */
    method QueryReducer() returns (r: Result<seq<(I32, I32)>>)
      ensures r == ReducedIn(codec, storage.data, storage.data)
      ensures ReducerOutcome(codec, storage.data, r)
      ensures forall q | Holds(q) :: r == Reduced(q.items, q.items)
    {
      RangeAll(storage.data);
      r := Reduce(Range(storage.data, None, None, Ascending));
      ReducerExact(codec, storage.data);
      forall q | Holds(q) ensures ParsedPrefix(codec, storage.data) == q.items && |q.items| == |storage.data| {
        LayoutParses(codec, q);
      }
    }

    /** The outer loop; the inner iterator runs over the same records. */
    method Reduce(records: Records) returns (r: Result<seq<(I32, I32)>>)
      ensures r == ReducedIn(codec, records, records)
    {
      var out: seq<(I32, I32)> := [];
      for i := 0 to |records|
        invariant ReducedIn(codec, records[..i], records) == Ok(out)
      {
        assert records[..i + 1][..i] == records[..i];
        ReducedInPrefix(codec, records, records, i + 1);
        var mine := codec.decode(records[i].value);
        if mine.Err? {
          return Err(mine.error);
        }
        var sum := SumAboveIn(codec, records, mine.value);
        if sum.Err? {
          return Err(sum.error);
        }
        out := out + [(mine.value, sum.value)];
      }
      assert records[..|records|] == records;
      return Ok(out);
    }

    /** The key ranges of `query_list`. */
    method QueryList(ghost q: Fifo) returns (empty: seq<nat>, early: seq<nat>, late: seq<nat>)
      requires Holds(q)
      ensures empty == []
      ensures early + late == seq(|q.items|, i requires 0 <= i < |q.items| => q.first + i)
      ensures (forall k | k in early :: k < 0x20) && forall k | k in late :: k >= 0x20
    {
      LayoutSorted(codec, q);
      var d := storage.data;
      NothingLarge(d);
      LowAndHigh(d);
      ListCovers(d);
      ListOfLayout(codec, q);
      empty := FirstBytes(Range(d, Some(LARGE), Some(LARGER), Ascending));
      early := FirstBytes(Range(d, None, Some([0x20]), Ascending));
      late := FirstBytes(Range(d, Some([0x20]), None, Ascending));
    }
  }

  lemma {:induction false} SelectAll(d: Records)
    ensures Select(d, None, None) == d
  {
    if d != [] {
      SelectAll(d[1..]);
      assert d == [d[0]] + d[1..];
    }
  }

  lemma RangeAll(d: Records)
    ensures Range(d, None, None, Ascending) == d && Range(d, None, None, Descending) == Reverse(d)
  {
    SelectAll(d);
  }

  // ----- sums -----

  function AddI32(a: I32, b: I32): Result<I32> {
    if -I32_LIMIT <= a + b < I32_LIMIT then Ok(a + b) else Err(SUM_OVERFLOW)
  }

  /** The running sum of the values above x; it panics as soon as a partial sum leaves the range. */
  function SumAbove(values: seq<I32>, x: I32): Result<I32> {
    if values == [] then Ok(0)
    else
      var n := |values| - 1;
      var acc :- SumAbove(values[..n], x);
      if values[n] > x then AddI32(acc, values[n]) else Ok(acc)
  }

  /** The naive specification: plain integers. */
  function TotalAbove(values: seq<I32>, x: I32): int {
    if values == [] then 0
    else TotalAbove(values[..|values| - 1], x) + if values[|values| - 1] > x then values[|values| - 1] else 0
  }

  ghost predicate InRange(x: int) {
    -I32_LIMIT <= x < I32_LIMIT
  }

  /** The sum is the naive one, and it succeeds exactly when every partial sum fits. */
  lemma {:induction false} SumAboveExact(values: seq<I32>, x: I32)
    ensures SumAbove(values, x).Ok? ==> SumAbove(values, x).value == TotalAbove(values, x)
    ensures SumAbove(values, x).Ok? <==> forall k | 0 <= k <= |values| :: InRange(TotalAbove(values[..k], x))
    decreases |values|
  {
    if values == [] {
      assert values[..0] == [];
    } else {
      var n := |values| - 1;
      SumAboveExact(values[..n], x);
      assert forall k | 0 <= k <= n :: values[..n][..k] == values[..k];
      assert values[..|values|] == values;
      if SumAbove(values[..n], x).Ok? && InRange(TotalAbove(values, x)) {
        forall k | 0 <= k <= |values| ensures InRange(TotalAbove(values[..k], x)) {
          if k <= n {
            assert InRange(TotalAbove(values[..n][..k], x));
          }
        }
      }
      if forall k | 0 <= k <= |values| :: InRange(TotalAbove(values[..k], x)) {
        forall k | 0 <= k <= n ensures InRange(TotalAbove(values[..n][..k], x)) {
          assert InRange(TotalAbove(values[..k], x));
        }
        assert InRange(TotalAbove(values[..|values|], x));
      }
    }
  }

  function Reduced(items: seq<I32>, all: seq<I32>): Result<seq<(I32, I32)>> {
    if items == [] then Ok([])
    else
      var n := |items| - 1;
      var front :- Reduced(items[..n], all);
      var sum :- SumAbove(all, items[n]);
      Ok(front + [(items[n], sum)])
  }

  lemma {:induction false} SumAboveError(values: seq<I32>, x: I32)
    ensures SumAbove(values, x).Err? ==> SumAbove(values, x) == Err(SUM_OVERFLOW)
    decreases |values|
  {
    if values != [] {
      SumAboveError(values[..|values| - 1], x);
    }
  }

  /** When the sums fit, the reducer pairs every item, in order, with the sum of the items above it. */
  lemma {:induction false} ReducedMeans(items: seq<I32>, all: seq<I32>, i: nat)
    requires Reduced(items, all).Ok? && i < |items|
    ensures |Reduced(items, all).value| == |items|
    ensures Reduced(items, all).value[i] == (items[i], TotalAbove(all, items[i]))
    decreases |items|
  {
    var n := |items| - 1;
    SumAboveExact(all, items[n]);
    if i < n {
      ReducedMeans(items[..n], all, i);
    } else if n > 0 {
      ReducedMeans(items[..n], all, 0);
    }
  }

  // ----- the reducer on stored bytes -----

  /** The inner iterator: parse, keep what is above x, add up; it stops at the first record that does not parse. */
  function SumAboveIn(c: Codec<I32>, rs: Records, x: I32): Result<I32> {
    if rs == [] then Ok(0)
    else
      var n := |rs| - 1;
      var acc :- SumAboveIn(c, rs[..n], x);
      var v := c.decode(rs[n].value);
      if v.Err? then Err(PARSE_PANIC)
      else if v.value > x then AddI32(acc, v.value)
      else Ok(acc)
  }

  function ReducedIn(c: Codec<I32>, rs: Records, all: Records): Result<seq<(I32, I32)>> {
    if rs == [] then Ok([])
    else
      var n := |rs| - 1;
      var front :- ReducedIn(c, rs[..n], all);
      var mine :- c.decode(rs[n].value);
      var sum :- SumAboveIn(c, all, mine);
      Ok(front + [(mine, sum)])
  }

  /** The values of the records before the first one that does not parse. */
  function ParsedPrefix(c: Codec<I32>, rs: Records): (values: seq<I32>)
    ensures |values| <= |rs|
    ensures forall i | 0 <= i < |values| :: c.decode(rs[i].value) == Ok(values[i])
    ensures |values| < |rs| ==> c.decode(rs[|values|].value).Err?
  {
    if rs == [] || c.decode(rs[0].value).Err? then []
    else [c.decode(rs[0].value).value] + ParsedPrefix(c, rs[1..])
  }

  lemma LayoutParses(c: Codec<I32>, q: Fifo)
    requires Fits(q) && Lawful(c)
    ensures ParsedPrefix(c, Layout(c, q)) == q.items
  {
    var d, values := Layout(c, q), ParsedPrefix(c, Layout(c, q));
    forall i | 0 <= i < |d| ensures c.decode(d[i].value) == Ok(q.items[i]) {
    }
    assert |values| == |d|;
  }

  /** An iterator that failed early has failed. */
  lemma {:induction false} ReducedInPrefix(c: Codec<I32>, rs: Records, all: Records, i: nat)
    requires i <= |rs|
    ensures ReducedIn(c, rs[..i], all).Err? ==> ReducedIn(c, rs, all) == ReducedIn(c, rs[..i], all)
    decreases |rs|
  {
    if i == |rs| {
      assert rs[..i] == rs;
    } else {
      ReducedInPrefix(c, rs[..|rs| - 1], all, i);
      assert rs[..|rs| - 1][..i] == rs[..i];
    }
  }

  lemma {:induction false} SumAboveInPrefix(c: Codec<I32>, rs: Records, x: I32, i: nat)
    requires i <= |rs|
    ensures SumAboveIn(c, rs[..i], x).Err? ==> SumAboveIn(c, rs, x) == SumAboveIn(c, rs[..i], x)
    decreases |rs|
  {
    if i == |rs| {
      assert rs[..i] == rs;
    } else {
      SumAboveInPrefix(c, rs[..|rs| - 1], x, i);
      assert rs[..|rs| - 1][..i] == rs[..i];
    }
  }

  ghost predicate ParsesTo(c: Codec<I32>, rs: Records, values: seq<I32>) {
    |rs| == |values| && forall i | 0 <= i < |rs| :: c.decode(rs[i].value) == Ok(values[i])
  }

  lemma {:induction false} SumParsed(c: Codec<I32>, rs: Records, values: seq<I32>, x: I32)
    requires ParsesTo(c, rs, values)
    ensures SumAboveIn(c, rs, x) == SumAbove(values, x)
    decreases |rs|
  {
    if rs != [] {
      SumParsed(c, rs[..|rs| - 1], values[..|rs| - 1], x);
    }
  }

  lemma {:induction false} ReducedParsed(c: Codec<I32>, rs: Records, values: seq<I32>,
                                         all: Records, allValues: seq<I32>)
    requires ParsesTo(c, rs, values) && ParsesTo(c, all, allValues)
    ensures ReducedIn(c, rs, all) == Reduced(values, allValues)
    decreases |rs|
  {
    if rs != [] {
      var n := |rs| - 1;
      ReducedParsed(c, rs[..n], values[..n], all, allValues);
      SumParsed(c, all, allValues, values[n]);
    }
  }

  /** When all records parse, the reducer of their values. A record that does not parse is an error when it is
      the first one; otherwise the sum of the first row panics, on that record or on an overflow before it. */
  ghost predicate ReducerOutcome(c: Codec<I32>, rs: Records, r: Result<seq<(I32, I32)>>) {
    var values := ParsedPrefix(c, rs);
    if |values| == |rs| then r == Reduced(values, values)
    else if values == [] then r == Err(c.decode(rs[0].value).error)
    else if SumAbove(values, values[0]).Err? then r == Err(SUM_OVERFLOW)
    else r == Err(PARSE_PANIC)
  }

  /** The exact outcome of the reducer on any records. */
  lemma ReducerExact(c: Codec<I32>, rs: Records)
    ensures ReducerOutcome(c, rs, ReducedIn(c, rs, rs))
  {
    var values := ParsedPrefix(c, rs);
    var n := |values|;
    if n == |rs| {
      ReducedParsed(c, rs, values, rs, values);
    } else {
      assert rs[..1][..0] == [] && rs[..1][0] == rs[0];
      ReducedInPrefix(c, rs, rs, 1);
      if n > 0 {
        FirstSumPanics(c, rs, values);
      }
    }
  }

  lemma FirstSumPanics(c: Codec<I32>, rs: Records, values: seq<I32>)
    requires 0 < |values| < |rs| && ParsesTo(c, rs[..|values|], values) && c.decode(rs[|values|].value).Err?
    ensures SumAboveIn(c, rs, values[0]) ==
            if SumAbove(values, values[0]).Err? then Err(SUM_OVERFLOW) else Err(PARSE_PANIC)
  {
    var n, x := |values|, values[0];
    SumParsed(c, rs[..n], values, x);
    SumAboveError(values, x);
    SumStopsAt(c, rs, x, n);
    SumAboveInPrefix(c, rs, x, n + 1);
  }

  lemma SumStopsAt(c: Codec<I32>, rs: Records, x: I32, n: nat)
    requires n < |rs| && c.decode(rs[n].value).Err?
    ensures var front := SumAboveIn(c, rs[..n], x);
            SumAboveIn(c, rs[..n + 1], x) == if front.Err? then front else Err(PARSE_PANIC)
  {
    var rs' := rs[..n + 1];
    assert rs'[..n] == rs[..n] && rs'[n] == rs[n];
  }

  /** Two stores with one record that does not parse: behind another record it is a panic, in front an error. */
  lemma UnparsableRecord()
    ensures var c := Codec((x: I32) => [1], (b: Bytes) => if b == [1] then Ok(7) else Err(Generic("parse")));
            var good, bad := Record([0], [1]), Record([1], [2]);
            && ReducedIn(c, [good, bad], [good, bad]) == Err(PARSE_PANIC)
            && ReducedIn(c, [bad, good], [bad, good]) == Err(Generic("parse"))
  {
    var c := Codec((x: I32) => [1], (b: Bytes) => if b == [1] then Ok(7) else Err(Generic("parse")));
    var good, bad := Record([0], [1]), Record([1], [2]);
    assert bad.value[0] != good.value[0];
    assert [good, bad][1..] == [bad] && ParsedPrefix(c, [bad]) == [];
    assert ParsedPrefix(c, [good, bad]) == [7] && [7][..0] == [];
    assert SumAbove([7], 7) == Ok(0);
    ReducerExact(c, [good, bad]);
    ReducerExact(c, [bad, good]);
  }

  // ----- key listings -----

  /** The bounds "large" and "larger". */
  const LARGE: Bytes := [108, 97, 114, 103, 101]
  const LARGER: Bytes := [108, 97, 114, 103, 101, 114]

  predicate OneByteKeys(d: Records) {
    forall i | 0 <= i < |d| :: |d[i].key| == 1
  }

  function FirstBytes(d: Records): seq<nat>
    requires OneByteKeys(d)
  {
    seq(|d|, i requires 0 <= i < |d| => d[i].key[0] as nat)
  }

  lemma ListOfLayout(c: Codec<I32>, q: Fifo)
    requires Fits(q)
    ensures OneByteKeys(Layout(c, q))
    ensures FirstBytes(Layout(c, q)) == seq(|q.items|, i requires 0 <= i < |q.items| => q.first + i)
  {
  }

  /** The two halves of the listing together list every key, in order. */
  lemma ListCovers(d: Records)
    requires Sorted(d) && OneByteKeys(d)
    requires OneByteKeys(Range(d, None, Some([0x20]), Ascending))
    requires OneByteKeys(Range(d, Some([0x20]), None, Ascending))
    ensures FirstBytes(Range(d, None, Some([0x20]), Ascending)) + FirstBytes(Range(d, Some([0x20]), None, Ascending))
         == FirstBytes(d)
  {
    SplitRange(d, [0x20]);
    var low, high := Range(d, None, Some([0x20]), Ascending), Range(d, Some([0x20]), None, Ascending);
    assert low + high == d;
  }

  lemma OneByteLess(k: Bytes, b: byte)
    requires |k| == 1
    ensures Less(k, [b]) <==> k[0] < b
  {
    assert k[1..] == [] && [b][1..] == [];
  }

  lemma OneByteNotLarge(k: Bytes)
    requires |k| == 1
    ensures !InBounds(k, Some(LARGE), Some(LARGER))
  {
    assert k[1..] == [] && LARGE[1..] != [] && LARGER[1..] != [];
    assert k[0] <= 108 ==> Less(k, LARGE);
    assert k[0] > 108 ==> !Less(k, LARGER);
  }

  lemma NothingLarge(d: Records)
    requires Sorted(d) && OneByteKeys(d)
    ensures Range(d, Some(LARGE), Some(LARGER), Ascending) == []
  {
    forall i | 0 <= i < |d| ensures !InBounds(d[i].key, Some(LARGE), Some(LARGER)) {
      OneByteNotLarge(d[i].key);
    }
    SelectNothing(d, Some(LARGE), Some(LARGER));
  }

  lemma {:induction false} SelectNothing(d: Records, start: Option<Bytes>, end: Option<Bytes>)
    requires forall i | 0 <= i < |d| :: !InBounds(d[i].key, start, end)
    ensures Select(d, start, end) == []
  {
    if d != [] {
      SelectNothing(d[1..], start, end);
    }
  }

  /** One-byte keys below and from 0x20. */
  lemma LowAndHigh(d: Records)
    requires Sorted(d) && OneByteKeys(d)
    ensures OneByteKeys(Range(d, None, Some([0x20]), Ascending)) && OneByteKeys(Range(d, Some([0x20]), None, Ascending))
    ensures forall k | k in FirstBytes(Range(d, None, Some([0x20]), Ascending)) :: k < 0x20
    ensures forall k | k in FirstBytes(Range(d, Some([0x20]), None, Ascending)) :: k >= 0x20
  {
    RangeSound(d, None, Some([0x20]), Ascending);
    RangeSound(d, Some([0x20]), None, Ascending);
    forall r | r in d ensures |r.key| == 1 && (Less(r.key, [0x20]) <==> r.key[0] < 0x20) {
      OneByteLess(r.key, 0x20);
    }
  }

  /** Splitting a sorted store at a key loses and repeats nothing. */
  lemma {:induction false} SplitRange(d: Records, k: Bytes)
    requires Sorted(d)
    ensures Select(d, None, Some(k)) + Select(d, Some(k), None) == d
  {
    if d != [] {
      SortedTail(d);
      SplitRange(d[1..], k);
      assert d == [d[0]] + d[1..];
      if !Less(d[0].key, k) {
        NothingBelow(d[1..], k, d[0].key);
      }
    }
  }

  lemma {:induction false} NothingBelow(d: Records, k: Bytes, low: Bytes)
    requires !Less(low, k) && forall r | r in d :: Less(low, r.key)
    ensures Select(d, None, Some(k)) == []
  {
    if d != [] {
      assert d[0] in d;
      NothingBelow(d[1..], k, low);
      if Less(d[0].key, k) {
        LessTransitive(low, d[0].key, k);
      }
    }
  }

  // ----- runs -----

  datatype Op = Enq(v: I32) | Deq | Mig

  /** One transaction on the queue; a failed enqueue changes nothing. */
  function Apply(q: Fifo, op: Op): Fifo {
    match op
    case Enq(v) => (var r := Enqueued(q, v); if r.Ok? then r.value else q)
    case Deq => Dequeued(q)
    case Mig => MIGRATED
  }

  /** The ideal unbounded queue. */
  function Ideal(items: seq<I32>, op: Op): seq<I32> {
    match op
    case Enq(v) => items + [v]
    case Deq => if items == [] then [] else items[1..]
    case Mig => [100, 101, 102]
  }

  function Run(q: Fifo, ops: seq<Op>): Fifo
    decreases |ops|
  {
    if ops == [] then q else Run(Apply(q, ops[0]), ops[1..])
  }

  function IdealRun(items: seq<I32>, ops: seq<Op>): seq<I32>
    decreases |ops|
  {
    if ops == [] then items else IdealRun(Ideal(items, ops[0]), ops[1..])
  }

  /** No enqueue is attempted behind key 255. */
  ghost predicate NeverFull(q: Fifo, ops: seq<Op>)
    decreases |ops|
  {
    ops == [] ||
    ((ops[0].Enq? && q.items != [] ==> q.first + |q.items| <= 255) && NeverFull(Apply(q, ops[0]), ops[1..]))
  }

  /** What a dequeue returns. */
  function Answer(c: Codec<I32>, items: seq<I32>): Option<Bytes> {
    if items == [] then None else Some(c.encode(items[0]))
  }

  /** The answers of a history's dequeues, on the queue and on the ideal one. */
  function Answers(c: Codec<I32>, q: Fifo, ops: seq<Op>): seq<Option<Bytes>>
    decreases |ops|
  {
    if ops == [] then []
    else (if ops[0].Deq? then [Answer(c, q.items)] else []) + Answers(c, Apply(q, ops[0]), ops[1..])
  }

  function IdealAnswers(c: Codec<I32>, items: seq<I32>, ops: seq<Op>): seq<Option<Bytes>>
    decreases |ops|
  {
    if ops == [] then []
    else (if ops[0].Deq? then [Answer(c, items)] else []) + IdealAnswers(c, Ideal(items, ops[0]), ops[1..])
  }

  /** Over every run that attempts no enqueue behind key 255 the queue and its answers are the ideal ones. */
  lemma {:induction false} RunIsFifo(c: Codec<I32>, q: Fifo, ops: seq<Op>)
    requires Fits(q)
    ensures Fits(Run(q, ops))
    ensures NeverFull(q, ops) ==>
              Run(q, ops).items == IdealRun(q.items, ops) && Answers(c, q, ops) == IdealAnswers(c, q.items, ops)
    decreases |ops|
  {
    if ops != [] {
      ApplyIdealIff(q, ops[0]);
      RunIsFifo(c, Apply(q, ops[0]), ops[1..]);
    }
  }

  /** A single operation behaves like the ideal queue exactly when it is not an enqueue behind key 255. */
  lemma ApplyIdealIff(q: Fifo, op: Op)
    requires Fits(q)
    ensures Apply(q, op).items == Ideal(q.items, op) <==> !(op.Enq? && q.items != [] && q.first + |q.items| == 256)
  {
    if op.Enq? && q.items != [] && q.first + |q.items| == 256 {
      assert |q.items| != |q.items + [op.v]|;
    }
  }
}
