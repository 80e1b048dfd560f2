/** Storages seen through the `Storage` interface: a memory store, or a prefixed window onto another storage.
    Windows may be stacked to any depth. */
module Storage {
  import opened Wrappers
  import opened Bytes
  import opened OrderedMap
  import opened Seqs
  import opened LengthPrefixed
  import opened NamespaceHelpers

  datatype Store = Memory(data: Records) | Prefixed(base: Store, prefix: Bytes)

  const EMPTY_VALUE := Panic("Value must not be empty in Storage::set")
  const SHORT_KEY := Panic("range start index out of range for slice")

  function GetKey(s: Store, k: Bytes): Option<Bytes> {
    match s
    case Memory(d) => Get(d, k)
    case Prefixed(b, p) => GetKey(b, p + k)
  }

  function SetKey(s: Store, k: Bytes, v: Bytes): Result<Store> {
    match s
    case Memory(d) => if v == [] then Err(EMPTY_VALUE) else Ok(Memory(Put(d, k, v)))
    case Prefixed(b, p) =>
      var b' :- SetKey(b, p + k, v);
      Ok(Prefixed(b', p))
  }

  function RemoveKey(s: Store, k: Bytes): Store {
    match s
    case Memory(d) => Memory(Delete(d, k))
    case Prefixed(b, p) => Prefixed(RemoveKey(b, p + k), p)
  }

  /** `trim` slices the prefix off every key; a key shorter than the prefix makes the slice panic. */
  predicate Trimmable(p: Bytes, rs: Records) {
    forall r | r in rs :: |p| <= |r.key|
  }

  function Trimmed(p: Bytes, rs: Records): Records
    requires Trimmable(p, rs)
  {
    if rs == [] then []
    else [Record(rs[0].key[|p|..], rs[0].value)] + Trimmed(p, rs[1..])
  }

  function TrimAll(p: Bytes, rs: Records): Result<Records> {
    if Trimmable(p, rs) then Ok(Trimmed(p, rs)) else Err(SHORT_KEY)
  }

  function RangeStart(p: Bytes, start: Option<Bytes>): Bytes {
    if start.Some? then p + start.value else p
  }

  function RangeEnd(p: Bytes, end: Option<Bytes>): Bytes {
    if end.Some? then p + end.value else UpperBound(p)
  }

  function RangeOf(s: Store, start: Option<Bytes>, end: Option<Bytes>, order: Order): Result<Records> {
    match s
    case Memory(d) => Ok(Range(d, start, end, order))
    case Prefixed(b, p) =>
      var raw :- RangeOf(b, Some(RangeStart(p, start)), Some(RangeEnd(p, end)), order);
      TrimAll(p, raw)
  }

  // ----- lazy iteration -----

  /** The iterator a range returns is lazy: it yields records, and panics when it reaches a key too short to trim.
      `Items` lists what each step gives; `RangeOf` is what collecting all of it gives. */
  function Items(s: Store, start: Option<Bytes>, end: Option<Bytes>, order: Order): seq<Result<Record>> {
    match s
    case Memory(d) => Yielded(Range(d, start, end, order))
    case Prefixed(b, p) => TrimItems(p, Items(b, Some(RangeStart(p, start)), Some(RangeEnd(p, end)), order))
  }

  function Yielded(rs: Records): seq<Result<Record>> {
    seq(|rs|, i requires 0 <= i < |rs| => Ok(rs[i]))
  }

  function TrimItem(p: Bytes, item: Result<Record>): Result<Record> {
    if item.Err? then item
    else if |item.value.key| < |p| then Err(SHORT_KEY)
    else Ok(Record(item.value.key[|p|..], item.value.value))
  }

  function TrimItems(p: Bytes, items: seq<Result<Record>>): seq<Result<Record>> {
    seq(|items|, i requires 0 <= i < |items| => TrimItem(p, items[i]))
  }

  /** Consuming the whole iterator. */
  function Collect(items: seq<Result<Record>>): Result<Records> {
    if items == [] then Ok([])
    else
      var r :- items[0];
      var rest :- Collect(items[1..]);
      Ok([r] + rest)
  }

  ghost predicate OnlyShortKeys(items: seq<Result<Record>>) {
    forall i | 0 <= i < |items| :: items[i].Ok? || items[i] == Err(SHORT_KEY)
  }

  lemma {:induction false} CollectYielded(rs: Records)
    ensures Collect(Yielded(rs)) == Ok(rs)
  {
    if rs != [] {
      assert Yielded(rs)[1..] == Yielded(rs[1..]);
      CollectYielded(rs[1..]);
      assert rs == [rs[0]] + rs[1..];
    }
  }

  lemma {:induction false} CollectTrimmed(p: Bytes, items: seq<Result<Record>>)
    requires OnlyShortKeys(items)
    ensures OnlyShortKeys(TrimItems(p, items))
    ensures var raw := Collect(items);
            Collect(TrimItems(p, items)) == if raw.Ok? then TrimAll(p, raw.value) else Err(SHORT_KEY)
  {
    if items != [] {
      CollectTrimmed(p, items[1..]);
      assert TrimItems(p, items)[1..] == TrimItems(p, items[1..]);
      var rest := Collect(items[1..]);
      if items[0].Ok? && rest.Ok? {
        var rs := [items[0].value] + rest.value;
        assert rs[1..] == rest.value;
        assert Trimmable(p, rs) <==> |p| <= |items[0].value.key| && Trimmable(p, rest.value);
      }
    }
  }

  /** Collecting the iterator is the range, for every stack of windows. */
  lemma {:induction false} RangeCollectsItems(s: Store, start: Option<Bytes>, end: Option<Bytes>, order: Order)
    ensures OnlyShortKeys(Items(s, start, end, order))
    ensures RangeOf(s, start, end, order) == Collect(Items(s, start, end, order))
  {
    match s
    case Memory(d) => CollectYielded(Range(d, start, end, order));
    case Prefixed(b, p) =>
      RangeCollectsItems(b, Some(RangeStart(p, start)), Some(RangeEnd(p, end)), order);
      var items := Items(b, Some(RangeStart(p, start)), Some(RangeEnd(p, end)), order);
      CollectTrimmed(p, items);
      CollectFails(items);
  }

  lemma {:induction false} CollectFails(items: seq<Result<Record>>)
    requires OnlyShortKeys(items)
    ensures Collect(items).Ok? || Collect(items) == Err(SHORT_KEY)
  {
    if items != [] {
      CollectFails(items[1..]);
    }
  }

  function Raw(s: Store): Records {
    match s
    case Memory(d) => d
    case Prefixed(b, _) => Raw(b)
  }

  // ----- the independent map of one prefix -----

  /** What the records under a prefix are, as a map of its own. */
  function View(d: Records, p: Bytes): Records {
    if d == [] then []
    else (if p <= d[0].key then [Record(d[0].key[|p|..], d[0].value)] else []) + View(d[1..], p)
  }

  lemma {:induction false} ViewMembers(d: Records, p: Bytes, r: Record)
    ensures r in View(d, p) <==> Record(p + r.key, r.value) in d
  {
    if d != [] {
      ViewMembers(d[1..], p, r);
      assert d == [d[0]] + d[1..];
      assert (p + r.key)[|p|..] == r.key;
      if p <= d[0].key {
        assert d[0].key == p + d[0].key[|p|..];
      }
    }
  }

  lemma {:induction false} ViewSorted(d: Records, p: Bytes)
    requires Sorted(d)
    ensures Sorted(View(d, p))
  {
    if d != [] {
      SortedTail(d);
      ViewSorted(d[1..], p);
      var rest := View(d[1..], p);
      if p <= d[0].key {
        var k := d[0].key[|p|..];
        assert d[0].key == p + k;
        if rest != [] {
          ViewMembers(d[1..], p, rest[0]);
          LessCommonPrefix(p, k, rest[0].key);
        }
        SortedCons(Record(k, d[0].value), rest);
      } else {
        assert View(d, p) == rest;
      }
    }
  }

  lemma ViewGet(d: Records, p: Bytes, k: Bytes)
    requires Sorted(d)
    ensures Get(View(d, p), k) == Get(d, p + k)
  {
    ViewSorted(d, p);
    var a, b := Get(View(d, p), k), Get(d, p + k);
    if a.Some? {
      GetMember(View(d, p), k, a.value);
      ViewMembers(d, p, Record(k, a.value));
      GetMember(d, p + k, a.value);
    } else if b.Some? {
      GetMember(d, p + k, b.value);
      ViewMembers(d, p, Record(k, b.value));
      GetMember(View(d, p), k, b.value);
    }
  }

  /** Writing through a prefix is a write to that prefix's own map. */
  lemma ViewPut(d: Records, p: Bytes, k: Bytes, v: Bytes)
    requires Sorted(d)
    ensures Sorted(Put(d, p + k, v))
    ensures View(Put(d, p + k, v), p) == Put(View(d, p), k, v)
  {
    var d' := Put(d, p + k, v);
    ViewSorted(d, p);
    PutSound(d, p + k, v, p + k);
    PutSound(View(d, p), k, v, k);
    ViewSorted(d', p);
    forall l ensures Get(View(d', p), l) == Get(Put(View(d, p), k, v), l) {
      ViewGet(d', p, l);
      ViewGet(d, p, l);
      PutSound(d, p + k, v, p + l);
      PutSound(View(d, p), k, v, l);
      assert (p + l)[|p|..] == l && (p + k)[|p|..] == k;
    }
    Extensional(View(d', p), Put(View(d, p), k, v));
  }

  lemma ViewDelete(d: Records, p: Bytes, k: Bytes)
    requires Sorted(d)
    ensures Sorted(Delete(d, p + k))
    ensures View(Delete(d, p + k), p) == Delete(View(d, p), k)
  {
    var d' := Delete(d, p + k);
    ViewSorted(d, p);
    DeleteSound(d, p + k, p + k);
    DeleteSound(View(d, p), k, k);
    ViewSorted(d', p);
    forall l ensures Get(View(d', p), l) == Get(Delete(View(d, p), k), l) {
      ViewGet(d', p, l);
      ViewGet(d, p, l);
      DeleteSound(d, p + k, p + l);
      DeleteSound(View(d, p), k, l);
      assert (p + l)[|p|..] == l && (p + k)[|p|..] == k;
    }
    Extensional(View(d', p), Delete(View(d, p), k));
  }

  /** Writes under one prefix are invisible under any prefix that is not in line with it. */
  lemma ViewIndependent(d: Records, p: Bytes, q: Bytes, k: Bytes, v: Bytes)
    requires Sorted(d)
    requires !(p <= q) && !(q <= p)
    ensures View(Put(d, p + k, v), q) == View(d, q)
    ensures View(Delete(d, p + k), q) == View(d, q)
  {
    ViewSorted(d, q);
    PutSound(d, p + k, v, []);
    DeleteSound(d, p + k, []);
    ViewSorted(Put(d, p + k, v), q);
    ViewSorted(Delete(d, p + k), q);
    forall l
      ensures Get(View(Put(d, p + k, v), q), l) == Get(View(d, q), l)
      ensures Get(View(Delete(d, p + k), q), l) == Get(View(d, q), l)
    {
      ViewGet(d, q, l);
      ViewGet(Put(d, p + k, v), q, l);
      ViewGet(Delete(d, p + k), q, l);
      PutSound(d, p + k, v, q + l);
      DeleteSound(d, p + k, q + l);
      if p + k == q + l {
        CommonExtension(p, k, q, l);
      }
    }
    Extensional(View(Put(d, p + k, v), q), View(d, q));
    Extensional(View(Delete(d, p + k), q), View(d, q));
  }

  // ----- ranges -----

  /** Some stored key is a cut-off copy of the upper bound. */
  ghost predicate HasSpurious(d: Records, p: Bytes)
    requires !AllOnes(p)
  {
    exists r :: r in d && Spurious(p, r.key)
  }

  /** One key: inside the raw interval exactly when it is in the prefix's interval, or a cut-off bound. */
  lemma BoundsExact(p: Bytes, start: Option<Bytes>, end: Option<Bytes>, k: Bytes)
    requires end.Some? || !AllOnes(p)
    ensures InBounds(k, Some(RangeStart(p, start)), Some(RangeEnd(p, end))) <==>
            (p <= k && InBounds(k[|p|..], start, end)) || (end.None? && Spurious(p, k))
  {
    var s := if start.Some? then start.value else [];
    assert RangeStart(p, start) == p + s;
    if p <= k {
      var t := k[|p|..];
      assert k == p + t;
      LessCommonPrefix(p, t, s);
      if end.Some? {
        LessCommonPrefix(p, t, end.value);
      } else {
        BoundExact(p, k);
      }
    } else if end.Some? {
      if InBounds(k, Some(p + s), Some(p + end.value)) {
        BetweenSharesPrefix(p, s, end.value, k);
      }
    } else {
      BoundExact(p, k);
      if Spurious(p, k) {
        SpuriousAbove(p, k, s);
        LessAsymmetric(p + s, k);
      } else if AtMost(p + s, k) && Less(k, UpperBound(p)) {
        PrefixAtMost(p, p + s);
        AtMostTransitive(p, p + s, k);
      }
    }
  }

  lemma AtMostTransitive(a: Bytes, b: Bytes, c: Bytes)
    requires AtMost(a, b) && AtMost(b, c)
    ensures AtMost(a, c)
  {
    LessTotal(b, c);
    if Less(c, a) {
      LessAtMost(c, a, b);
    }
  }

  lemma {:induction false} TrimmedAppend(p: Bytes, a: Records, b: Records)
    requires Trimmable(p, a) && Trimmable(p, b)
    ensures Trimmable(p, a + b)
    ensures Trimmed(p, a + b) == Trimmed(p, a) + Trimmed(p, b)
  {
    if a == [] {
      assert a + b == b;
    } else {
      TrimmedAppend(p, a[1..], b);
      assert (a + b)[1..] == a[1..] + b;
    }
  }

  lemma {:induction false} TrimmedReverse(p: Bytes, rs: Records)
    requires Trimmable(p, rs)
    ensures Trimmable(p, Reverse(rs))
    ensures Trimmed(p, Reverse(rs)) == Reverse(Trimmed(p, rs))
  {
    if rs != [] {
      TrimmedReverse(p, rs[1..]);
      TrimmedAppend(p, Reverse(rs[1..]), [rs[0]]);
      assert Trimmed(p, [rs[0]]) == [Record(rs[0].key[|p|..], rs[0].value)];
    }
  }

  lemma {:induction false} SelectView(d: Records, p: Bytes, start: Option<Bytes>, end: Option<Bytes>)
    requires end.Some? || (!AllOnes(p) && !HasSpurious(d, p))
    ensures var raw := Select(d, Some(RangeStart(p, start)), Some(RangeEnd(p, end)));
            Trimmable(p, raw) && Trimmed(p, raw) == Select(View(d, p), start, end)
  {
    if d != [] {
      assert d == [d[0]] + d[1..];
      SelectView(d[1..], p, start, end);
      BoundsExact(p, start, end, d[0].key);
      var raw := Select(d[1..], Some(RangeStart(p, start)), Some(RangeEnd(p, end)));
      var k := d[0].key;
      if p <= k {
        var r := Record(k[|p|..], d[0].value);
        assert View(d, p) == [r] + View(d[1..], p) && View(d, p)[1..] == View(d[1..], p);
        if InBounds(r.key, start, end) {
          TrimmedAppend(p, [d[0]], raw);
          assert Trimmed(p, [d[0]]) == [r];
        } else {
          assert [] + raw == raw;
        }
      } else {
        assert View(d, p) == View(d[1..], p);
        assert [] + raw == raw;
      }
    }
  }

  /** The range of a prefixed window, for every store, prefix, pair of bounds and order: it panics exactly
      when it is open-ended and a cut-off copy of the upper bound is stored, and otherwise it is the range
      of the prefix's own map. */
  lemma PrefixedRangeExact(d: Records, p: Bytes, start: Option<Bytes>, end: Option<Bytes>, order: Order)
    requires end.Some? || !AllOnes(p)
    ensures RangeOf(Prefixed(Memory(d), p), start, end, order) ==
            if end.None? && HasSpurious(d, p) then Err(SHORT_KEY) else Ok(Range(View(d, p), start, end, order))
  {
    var a, b := RangeStart(p, start), RangeEnd(p, end);
    RangeIsSelect(d, Some(a), Some(b), order);
    RangeIsSelect(View(d, p), start, end, order);
    var raw := Select(d, Some(a), Some(b));
    if end.None? && HasSpurious(d, p) {
      var r :| r in d && Spurious(p, r.key);
      BoundsExact(p, start, end, r.key);
      SelectMembers(d, Some(a), Some(b), r);
      ReverseMembers(raw, r);
    } else {
      SelectView(d, p, start, end);
      TrimmedReverse(p, raw);
    }
  }

  // ----- the same, step by step -----

  /** The cut-off bounds an open range meets. */
  ghost function CutOff(d: Records, p: Bytes, end: Option<Bytes>): nat
    requires end.Some? || !AllOnes(p)
  {
    if d == [] then 0 else (if end.None? && Spurious(p, d[0].key) then 1 else 0) + CutOff(d[1..], p, end)
  }

  function Panics(n: nat): seq<Result<Record>> {
    seq(n, _ => Err(SHORT_KEY))
  }

  /** What iterating a window should give: its own map's range, and panics only at the far end of open ranges. */
  ghost function WindowItems(d: Records, p: Bytes, start: Option<Bytes>, end: Option<Bytes>, order: Order)
    : seq<Result<Record>>
    requires end.Some? || !AllOnes(p)
  {
    var good, bad := Yielded(Range(View(d, p), start, end, order)), Panics(CutOff(d, p, end));
    if order == Ascending then good + bad else bad + good
  }

  lemma {:induction false} NothingBehindSpurious(d: Records, p: Bytes, k: Bytes)
    requires !AllOnes(p) && Spurious(p, k) && forall r | r in d :: Less(k, r.key)
    ensures View(d, p) == []
  {
    if d != [] {
      NothingBehindSpurious(d[1..], p, k);
      assert d[0] in d;
      if p <= d[0].key {
        assert d[0].key == p + d[0].key[|p|..];
        SpuriousAbove(p, k, d[0].key[|p|..]);
        LessAsymmetric(d[0].key, k);
      }
    }
  }

  ghost predicate ItemsAgree(d: Records, p: Bytes, start: Option<Bytes>, end: Option<Bytes>)
    requires end.Some? || !AllOnes(p)
  {
    TrimItems(p, Yielded(Select(d, Some(RangeStart(p, start)), Some(RangeEnd(p, end)))))
    == Yielded(Select(View(d, p), start, end)) + Panics(CutOff(d, p, end))
  }

  lemma {:induction false} SelectedItems(d: Records, p: Bytes, start: Option<Bytes>, end: Option<Bytes>)
    requires Sorted(d) && (end.Some? || !AllOnes(p))
    ensures ItemsAgree(d, p, start, end)
  {
    if d != [] {
      SortedTail(d);
      SelectedItems(d[1..], p, start, end);
      BoundsExact(p, start, end, d[0].key);
      if !InBounds(d[0].key, Some(RangeStart(p, start)), Some(RangeEnd(p, end))) {
        OutsideAgrees(d, p, start, end);
      } else if p <= d[0].key {
        OwnAgrees(d, p, start, end);
      } else {
        NothingBehindSpurious(d[1..], p, d[0].key);
        CutOffAgrees(d, p, start, end);
      }
    }
  }

  lemma OutsideAgrees(d: Records, p: Bytes, start: Option<Bytes>, end: Option<Bytes>)
    requires d != [] && (end.Some? || !AllOnes(p)) && ItemsAgree(d[1..], p, start, end)
    requires !InBounds(d[0].key, Some(RangeStart(p, start)), Some(RangeEnd(p, end)))
    requires !(p <= d[0].key && InBounds(d[0].key[|p|..], start, end)) && !(end.None? && Spurious(p, d[0].key))
    ensures ItemsAgree(d, p, start, end)
  {
    SelectFirst(d, Some(RangeStart(p, start)), Some(RangeEnd(p, end)));
    SelectViewFirst(d, p, start, end);
  }

  lemma OwnAgrees(d: Records, p: Bytes, start: Option<Bytes>, end: Option<Bytes>)
    requires d != [] && (end.Some? || !AllOnes(p)) && ItemsAgree(d[1..], p, start, end)
    requires InBounds(d[0].key, Some(RangeStart(p, start)), Some(RangeEnd(p, end)))
    requires p <= d[0].key && InBounds(d[0].key[|p|..], start, end)
    ensures ItemsAgree(d, p, start, end)
  {
    var lo, hi := Some(RangeStart(p, start)), Some(RangeEnd(p, end));
    SelectFirst(d, lo, hi);
    SelectViewFirst(d, p, start, end);
    ItemYields(p, d[0], Select(d[1..], lo, hi), Select(View(d[1..], p), start, end), Panics(CutOff(d[1..], p, end)));
  }

  lemma CutOffAgrees(d: Records, p: Bytes, start: Option<Bytes>, end: Option<Bytes>)
    requires d != [] && !AllOnes(p) && end.None? && ItemsAgree(d[1..], p, start, end)
    requires InBounds(d[0].key, Some(RangeStart(p, start)), Some(RangeEnd(p, end)))
    requires Spurious(p, d[0].key) && View(d[1..], p) == []
    ensures ItemsAgree(d, p, start, end)
  {
    var lo, hi := Some(RangeStart(p, start)), Some(RangeEnd(p, end));
    SelectFirst(d, lo, hi);
    SelectViewFirst(d, p, start, end);
    ItemPanics(p, d[0], Select(d[1..], lo, hi), CutOff(d[1..], p, end));
  }

  lemma SelectFirst(d: Records, start: Option<Bytes>, end: Option<Bytes>)
    requires d != []
    ensures var rest := Select(d[1..], start, end);
            Select(d, start, end) == if InBounds(d[0].key, start, end) then [d[0]] + rest else rest
  {
  }

  lemma SelectViewFirst(d: Records, p: Bytes, start: Option<Bytes>, end: Option<Bytes>)
    requires d != []
    ensures var k, rest := d[0].key, Select(View(d[1..], p), start, end);
            Select(View(d, p), start, end) ==
            if p <= k && InBounds(k[|p|..], start, end) then [Record(k[|p|..], d[0].value)] + rest else rest
  {
    if p <= d[0].key {
      assert View(d, p)[1..] == View(d[1..], p);
    } else {
      assert View(d, p) == View(d[1..], p);
    }
  }

  lemma ItemYields(p: Bytes, r: Record, raw: Records, own: Records, bad: seq<Result<Record>>)
    requires TrimItems(p, Yielded(raw)) == Yielded(own) + bad && p <= r.key
    ensures TrimItems(p, Yielded([r] + raw)) == Yielded([Record(r.key[|p|..], r.value)] + own) + bad
  {
    TrimItemsCons(p, r, raw);
    assert Yielded([Record(r.key[|p|..], r.value)] + own) == [Ok(Record(r.key[|p|..], r.value))] + Yielded(own);
  }

  lemma ItemPanics(p: Bytes, r: Record, raw: Records, n: nat)
    requires TrimItems(p, Yielded(raw)) == Yielded([]) + Panics(n) && |r.key| < |p|
    ensures TrimItems(p, Yielded([r] + raw)) == Yielded([]) + Panics(1 + n)
  {
    TrimItemsCons(p, r, raw);
    assert Panics(1 + n) == [Err(SHORT_KEY)] + Panics(n);
  }

  lemma TrimItemsCons(p: Bytes, r: Record, rs: Records)
    ensures TrimItems(p, Yielded([r] + rs)) == [TrimItem(p, Ok(r))] + TrimItems(p, Yielded(rs))
  {
  }

  lemma {:induction false} CutOffCounts(d: Records, p: Bytes, end: Option<Bytes>)
    requires end.Some? || !AllOnes(p)
    ensures CutOff(d, p, end) > 0 <==> end.None? && HasSpurious(d, p)
  {
    if d != [] {
      CutOffCounts(d[1..], p, end);
      assert d == [d[0]] + d[1..];
    }
  }

  /** The range of a prefixed window, step by step, for every ordered store, prefix and pair of bounds: ascending
      iteration yields the whole range of the prefix's own map before it can panic; descending iteration of an
      open range panics first. It panics exactly when a cut-off copy of the upper bound is stored. */
  lemma ItemsExact(d: Records, p: Bytes, start: Option<Bytes>, end: Option<Bytes>, order: Order)
    requires Sorted(d) && (end.Some? || !AllOnes(p))
    ensures Items(Prefixed(Memory(d), p), start, end, order) == WindowItems(d, p, start, end, order)
    ensures CutOff(d, p, end) > 0 <==> end.None? && HasSpurious(d, p)
  {
    CutOffCounts(d, p, end);
    var a, b := RangeStart(p, start), RangeEnd(p, end);
    var raw, own := Select(d, Some(a), Some(b)), Select(View(d, p), start, end);
    RangeIsSelect(d, Some(a), Some(b), order);
    RangeIsSelect(View(d, p), start, end, order);
    SelectedItems(d, p, start, end);
    if order == Descending {
      ItemsReversed(p, raw, own, CutOff(d, p, end));
    }
  }

  lemma ItemsReversed(p: Bytes, raw: Records, own: Records, n: nat)
    requires TrimItems(p, Yielded(raw)) == Yielded(own) + Panics(n)
    ensures TrimItems(p, Yielded(Reverse(raw))) == Panics(n) + Yielded(Reverse(own))
  {
    ReverseAt(raw);
    ReverseAt(own);
    assert |raw| == |TrimItems(p, Yielded(raw))| == |own| + n;
    forall i | 0 <= i < |raw| ensures TrimItem(p, Ok(Reverse(raw)[i])) == (Panics(n) + Yielded(Reverse(own)))[i] {
      assert TrimItem(p, Ok(raw[|raw| - 1 - i])) == TrimItems(p, Yielded(raw))[|raw| - 1 - i];
    }
  }

  lemma AllOnesSelectsNothing(d: Records, p: Bytes, start: Option<Bytes>, order: Order)
    requires AllOnes(p)
    ensures Range(d, Some(RangeStart(p, start)), Some(UpperBound(p)), order) == []
  {
    UpperBoundOfOnes(p);
    var a, b := RangeStart(p, start), UpperBound(p);
    RangeIsSelect(d, Some(a), Some(b), order);
    assert Select(d, Some(a), Some(b)) == [] by {
      if p == [] {
        NothingBelowEmpty(d, a);
      } else {
        InvertedSelectsNothing(d, a, b);
      }
    }
  }

  /** A prefix of 0xFF bytes only, and the empty prefix, have no upper bound: an open-ended range over them
      is always empty, whatever is stored. */
  lemma AllOnesRangeEmpty(d: Records, p: Bytes, start: Option<Bytes>, order: Order)
    requires AllOnes(p)
    ensures RangeOf(Prefixed(Memory(d), p), start, None, order) == Ok([])
    ensures Items(Prefixed(Memory(d), p), start, None, order) == []
  {
    AllOnesSelectsNothing(d, p, start, order);
  }

  lemma {:induction false} NothingBelowEmpty(d: Records, a: Bytes)
    ensures Select(d, Some(a), Some([])) == []
  {
    if d != [] {
      NothingBelowEmpty(d[1..], a);
    }
  }

  /** Every raw key starts with a complete namespace: what storages that only write through namespaces keep. */
  ghost predicate AllNamespaced(d: Records) {
    forall r | r in d :: Namespaced(r.key)
  }

  /** Over namespaced stores a namespace's window is exactly a map of its own; no key is ever cut short. */
  lemma NamespaceRange(d: Records, ns: Bytes, start: Option<Bytes>, end: Option<Bytes>, order: Order)
    requires AllNamespaced(d) && Fits(ns)
    requires end.Some? || !AllOnes(Enc(ns))
    ensures RangeOf(Prefixed(Memory(d), Enc(ns)), start, end, order) == Ok(Range(View(d, Enc(ns)), start, end, order))
  {
    if end.None? && HasSpurious(d, Enc(ns)) {
      var r :| r in d && Spurious(Enc(ns), r.key);
      SpuriousNotNamespaced(ns, r.key);
    }
    PrefixedRangeExact(d, Enc(ns), start, end, order);
  }

  /** The same below any path: the window of `multilevel(path ++ [ns])`. */
  lemma MultilevelRange(d: Records, path: Bytes, ns: Bytes,
                        start: Option<Bytes>, end: Option<Bytes>, order: Order)
    requires AllNamespaced(View(d, path)) && Fits(ns)
    requires end.Some? || !AllOnes(Enc(ns))
    ensures RangeOf(Prefixed(Memory(d), path + Enc(ns)), start, end, order)
         == Ok(Range(View(d, path + Enc(ns)), start, end, order))
  {
    var p := path + Enc(ns);
    if end.None? {
      UpperBoundAppend(path, Enc(ns));
      if HasSpurious(d, p) {
        var r :| r in d && Spurious(p, r.key);
        SpuriousBelow(path, ns, r.key);
        var t := r.key[|path|..];
        assert r.key == path + t;
        ViewMembers(d, path, Record(t, r.value));
        SpuriousNotNamespaced(ns, t);
      }
    }
    PrefixedRangeExact(d, p, start, end, order);
  }

  lemma SpuriousBelow(path: Bytes, ns: Bytes, k: Bytes)
    requires Fits(ns) && !AllOnes(Enc(ns)) && !AllOnes(path + Enc(ns))
    requires Spurious(path + Enc(ns), k)
    ensures path <= k && Spurious(Enc(ns), k[|path|..])
  {
    UpperBoundAppend(path, Enc(ns));
    var ub := UpperBound(Enc(ns));
    assert k == (path + ub)[..|k|];
    assert k[|path|..] == ub[..|k| - |path|];
  }

  /** Writing through a namespace keeps every key namespaced. */
  lemma NamespacedPreserved(d: Records, ns: Bytes, k: Bytes, v: Bytes)
    requires Sorted(d) && AllNamespaced(d) && Fits(ns)
    ensures AllNamespaced(Put(d, Enc(ns) + k, v)) && AllNamespaced(Delete(d, Enc(ns) + k))
  {
    EncNamespaced(ns, k);
    forall r | r in Put(d, Enc(ns) + k, v) ensures Namespaced(r.key) {
      PutSound(d, Enc(ns) + k, v, r.key);
      GetMember(Put(d, Enc(ns) + k, v), r.key, r.value);
      GetMember(d, r.key, r.value);
    }
    forall r | r in Delete(d, Enc(ns) + k) ensures Namespaced(r.key) {
      DeleteSound(d, Enc(ns) + k, r.key);
      GetMember(Delete(d, Enc(ns) + k), r.key, r.value);
      GetMember(d, r.key, r.value);
    }
  }

  // ----- stacked windows -----

  /** A window for b on a window for a is the window for a ++ b: same reads and writes ... */
  lemma StackedAccess(s: Store, a: Bytes, b: Bytes, k: Bytes, v: Bytes)
    ensures GetKey(Prefixed(Prefixed(s, a), b), k) == GetKey(Prefixed(s, a + b), k)
    ensures var x, y := SetKey(Prefixed(Prefixed(s, a), b), k, v), SetKey(Prefixed(s, a + b), k, v);
            if x.Ok? then y.Ok? && Raw(x.value) == Raw(y.value) else y == Err(x.error)
    ensures Raw(RemoveKey(Prefixed(Prefixed(s, a), b), k)) == Raw(RemoveKey(Prefixed(s, a + b), k))
  {
    assert a + (b + k) == (a + b) + k;
    assert SetKey(Prefixed(s, a), b + k, v).Ok? <==> SetKey(s, a + (b + k), v).Ok?;
  }

  lemma StackedBounds(a: Bytes, b: Bytes, start: Option<Bytes>, end: Option<Bytes>)
    requires end.Some? || !AllOnes(b)
    ensures RangeStart(a, Some(RangeStart(b, start))) == RangeStart(a + b, start)
    ensures RangeEnd(a, Some(RangeEnd(b, end))) == RangeEnd(a + b, end)
  {
    assert start.Some? ==> a + (b + start.value) == (a + b) + start.value;
    if end.Some? {
      assert a + (b + end.value) == (a + b) + end.value;
    } else {
      UpperBoundAppend(a, b);
    }
  }

  /** ... and the same iteration, panics included, whenever the inner prefix has an upper bound. */
  lemma StackedRange(s: Store, a: Bytes, b: Bytes, start: Option<Bytes>, end: Option<Bytes>, order: Order)
    requires end.Some? || !AllOnes(b)
    ensures Items(Prefixed(Prefixed(s, a), b), start, end, order) == Items(Prefixed(s, a + b), start, end, order)
    ensures RangeOf(Prefixed(Prefixed(s, a), b), start, end, order) == RangeOf(Prefixed(s, a + b), start, end, order)
  {
    StackedBounds(a, b, start, end);
    var raw := Items(s, Some(RangeStart(a + b, start)), Some(RangeEnd(a + b, end)), order);
    assert Items(Prefixed(s, a), Some(RangeStart(b, start)), Some(RangeEnd(b, end)), order) == TrimItems(a, raw);
    TrimItemsTwice(a, b, raw);
    RangeCollectsItems(Prefixed(Prefixed(s, a), b), start, end, order);
    RangeCollectsItems(Prefixed(s, a + b), start, end, order);
  }

  lemma TrimItemsTwice(a: Bytes, b: Bytes, items: seq<Result<Record>>)
    ensures TrimItems(b, TrimItems(a, items)) == TrimItems(a + b, items)
  {
    forall i | 0 <= i < |items| ensures TrimItem(b, TrimItem(a, items[i])) == TrimItem(a + b, items[i]) {
      if items[i].Ok? && |a + b| <= |items[i].value.key| {
        assert items[i].value.key[|a|..][|b|..] == items[i].value.key[|a + b|..];
      }
    }
  }

  /** Stacked on any window, the open range of a prefix without an upper bound is empty. */
  lemma StackedOnesEmpty(d: Records, a: Bytes, b: Bytes, start: Option<Bytes>, order: Order)
    requires AllOnes(b)
    ensures Items(Prefixed(Prefixed(Memory(d), a), b), start, None, order) == []
  {
    UpperBoundOfOnes(b);
    var s, ub := RangeStart(b, start), UpperBound(b);
    RangeIsSelect(d, Some(a + s), Some(a + ub), order);
    forall r | r in d ensures !InBounds(r.key, Some(a + s), Some(a + ub)) {
      if InBounds(r.key, Some(a + s), Some(a + ub)) {
        BetweenSharesPrefix(a, s, ub, r.key);
        var t := r.key[|a|..];
        assert r.key == a + t;
        LessCommonPrefix(a, t, s);
        LessCommonPrefix(a, t, ub);
        AtMostLess(s, t, ub);
      }
    }
    NoneSelected(d, Some(a + s), Some(a + ub));
    assert Items(Prefixed(Memory(d), a), Some(s), Some(ub), order) == [];
  }

  lemma {:induction false} NoneSelected(d: Records, start: Option<Bytes>, end: Option<Bytes>)
    requires forall r | r in d :: !InBounds(r.key, start, end)
    ensures Select(d, start, end) == []
  {
    if d != [] {
      assert d[0] in d;
      NoneSelected(d[1..], start, end);
    }
  }

  /** The record is met by the open range from start over the prefix: it has the prefix, or is a cut-off bound. */
  ghost predicate Met(p: Bytes, start: Option<Bytes>, r: Record)
    requires !AllOnes(p)
  {
    (p <= r.key && InBounds(r.key[|p|..], start, None)) || Spurious(p, r.key)
  }

  /** Exactly when the stacked and the joined window iterate alike: they part in open ranges whose inner prefix
      has no upper bound while the outer one has, as soon as a record is stored that the joined range meets. */
  lemma StackedRangeIff(d: Records, a: Bytes, b: Bytes, start: Option<Bytes>, end: Option<Bytes>, order: Order)
    ensures var stacked, joined := Prefixed(Prefixed(Memory(d), a), b), Prefixed(Memory(d), a + b);
            Items(stacked, start, end, order) == Items(joined, start, end, order) <==>
            end.Some? || !AllOnes(b) || AllOnes(a + b) || !exists r :: r in d && Met(a + b, start, r)
  {
    if end.Some? || !AllOnes(b) {
      StackedRange(Memory(d), a, b, start, end, order);
    } else {
      StackedOnesEmpty(d, a, b, start, order);
      if AllOnes(a + b) {
        AllOnesRangeEmpty(d, a + b, start, order);
      } else {
        JoinedMeets(d, a + b, start, order);
      }
    }
  }

  lemma JoinedMeets(d: Records, p: Bytes, start: Option<Bytes>, order: Order)
    requires !AllOnes(p)
    ensures Items(Prefixed(Memory(d), p), start, None, order) == [] <==> !exists r :: r in d && Met(p, start, r)
  {
    var lo, hi := Some(RangeStart(p, start)), Some(UpperBound(p));
    RangeIsSelect(d, lo, hi, order);
    ReverseAt(Select(d, lo, hi));
    forall r: Record ensures InBounds(r.key, lo, hi) <==> Met(p, start, r) {
      BoundsExact(p, start, None, r.key);
    }
    if r :| r in d && Met(p, start, r) {
      SelectMembers(d, lo, hi, r);
    } else {
      NoneSelected(d, lo, hi);
    }
  }

  // ----- failing inputs -----

  /** Namespace [0xFF] over a store that holds the raw key [0, 2]: the open range panics. */
  lemma CutOffBoundPanics()
    ensures RangeOf(Prefixed(Memory([Record([0, 2], [1])]), Enc([255])), None, None, Ascending) == Err(SHORT_KEY)
  {
    var d, p: Bytes := [Record([0, 2], [1])], [0, 1, 255];
    assert Enc([255]) == p;
    assert p[2] == 255 && p[..2] == [0, 1] && [0, 1][..1] == [0];
    assert UpperBound([0, 1]) == [0, 2];
    assert UpperBound(p) == [0, 2, 0];
    assert p[1] != 255;
    assert Pivot([0, 1]) == 1 && Pivot(p) == 1;
    assert d[0] in d && Spurious(p, d[0].key);
    PrefixedRangeExact(d, p, None, None, Ascending);
  }

  /** The namespace of 0xFFFF bytes of 0xFF inside the namespace [1], with one record stored: the joined window
      yields it, the stacked one nothing. */
  lemma StackedWindowMissesRecord(ns: Bytes, v: Bytes, order: Order)
    requires |ns| == MAX_NAMESPACE && AllOnes(ns)
    ensures var d := [Record(Enc([1]) + Enc(ns), v)];
            && Items(Prefixed(Prefixed(Memory(d), Enc([1])), Enc(ns)), None, None, order) == []
            && Items(Prefixed(Memory(d), Enc([1]) + Enc(ns)), None, None, order) != []
  {
    var p := Enc([1]) + Enc(ns);
    var d := [Record(p, v)];
    AllOnesNamespace(ns);
    assert p[0] == Enc([1])[0] == 0;
    assert d[0] in d && Met(p, None, d[0]);
    StackedOnesEmpty(d, Enc([1]), Enc(ns), None, order);
    StackedRangeIff(d, Enc([1]), Enc(ns), None, None, order);
  }

  /** A record stored under the namespace of 0xFFFF bytes of 0xFF is read back by its key, yet its open range
      misses it. */
  lemma AllOnesRecordMissed(ns: Bytes, k: Bytes, v: Bytes, order: Order)
    requires |ns| == MAX_NAMESPACE && AllOnes(ns)
    ensures var s := Prefixed(Memory([Record(Enc(ns) + k, v)]), Enc(ns));
            GetKey(s, k) == Some(v) && RangeOf(s, None, None, order) == Ok([])
  {
    AllOnesNamespace(ns);
    AllOnesRangeEmpty([Record(Enc(ns) + k, v)], Enc(ns), None, order);
    assert GetKey(Memory([Record(Enc(ns) + k, v)]), Enc(ns) + k) == Some(v);
  }
}
