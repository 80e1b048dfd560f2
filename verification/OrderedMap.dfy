/** `MemoryStorage` keeps its records in a `BTreeMap`. The map is modelled by the list of its records in
    strictly ascending key order, which is what iteration over it yields. */
module OrderedMap {
  import opened Wrappers
  import opened Bytes
  import opened Seqs

  datatype Record = Record(key: Bytes, value: Bytes)

  datatype Order = Ascending | Descending

  type Records = seq<Record>

  predicate Sorted(d: Records) {
    forall i, j | 0 <= i < j < |d| :: Less(d[i].key, d[j].key)
  }

  function Get(d: Records, k: Bytes): Option<Bytes> {
    if d == [] then None
    else if d[0].key == k then Some(d[0].value)
    else Get(d[1..], k)
  }

  function Put(d: Records, k: Bytes, v: Bytes): Records {
    if d == [] || Less(k, d[0].key) then [Record(k, v)] + d
    else if d[0].key == k then [Record(k, v)] + d[1..]
    else [d[0]] + Put(d[1..], k, v)
  }

  function Delete(d: Records, k: Bytes): Records {
    if d == [] then []
    else if d[0].key == k then d[1..]
    else [d[0]] + Delete(d[1..], k)
  }

  predicate InBounds(k: Bytes, start: Option<Bytes>, end: Option<Bytes>) {
    (start.Some? ==> AtMost(start.value, k)) && (end.Some? ==> Less(k, end.value))
  }

  function Select(d: Records, start: Option<Bytes>, end: Option<Bytes>): Records {
    if d == [] then []
    else (if InBounds(d[0].key, start, end) then [d[0]] else []) + Select(d[1..], start, end)
  }

  /** `Storage::range` on the base store: the guard for `start > end` keeps `BTreeMap::range` from panicking. */
  function Range(d: Records, start: Option<Bytes>, end: Option<Bytes>, order: Order): Records {
    if start.Some? && end.Some? && Less(end.value, start.value) then []
    else if order == Ascending then Select(d, start, end)
    else Reverse(Select(d, start, end))
  }

  // ----- lookups and updates -----

  lemma SortedTail(d: Records)
    requires Sorted(d) && d != []
    ensures Sorted(d[1..])
    ensures forall r | r in d[1..] :: Less(d[0].key, r.key)
  {
  }

  lemma SortedCons(r: Record, d: Records)
    requires Sorted(d)
    requires d != [] ==> Less(r.key, d[0].key)
    ensures Sorted([r] + d)
  {
    var s := [r] + d;
    forall i, j | 0 <= i < j < |s| ensures Less(s[i].key, s[j].key) {
      if i == 0 && j > 1 {
        LessTransitive(r.key, d[0].key, d[j - 1].key);
      }
    }
  }

  lemma {:induction false} GetAbove(d: Records, k: Bytes)
    requires Sorted(d)
    requires d != [] ==> Less(k, d[0].key)
    ensures Get(d, k) == None
  {
    if d != [] {
      LessAsymmetric(k, d[0].key);
      SortedTail(d);
      if |d| > 1 {
        LessTransitive(k, d[0].key, d[1].key);
      }
      GetAbove(d[1..], k);
    }
  }

  /** Writing then reading: the written key reads back, no other key changes, the order survives. */
  lemma {:induction false} PutSound(d: Records, k: Bytes, v: Bytes, k': Bytes)
    requires Sorted(d)
    ensures Sorted(Put(d, k, v))
    ensures Get(Put(d, k, v), k') == if k' == k then Some(v) else Get(d, k')
    ensures Put(d, k, v)[0].key == if d == [] || Less(k, d[0].key) then k else d[0].key
  {
    if d == [] {
      assert ([Record(k, v)] + d)[1..] == d;
    } else {
      SortedTail(d);
      if Less(k, d[0].key) {
        SortedCons(Record(k, v), d);
        assert ([Record(k, v)] + d)[1..] == d;
      } else if d[0].key == k {
        assert ([Record(k, v)] + d[1..])[1..] == d[1..];
        SortedCons(Record(k, v), d[1..]);
      } else {
        LessTotal(k, d[0].key);
        PutSound(d[1..], k, v, k');
        SortedCons(d[0], Put(d[1..], k, v));
        assert ([d[0]] + Put(d[1..], k, v))[1..] == Put(d[1..], k, v);
      }
    }
  }

  lemma {:induction false} DeleteSound(d: Records, k: Bytes, k': Bytes)
    requires Sorted(d)
    ensures Sorted(Delete(d, k))
    ensures Get(Delete(d, k), k') == if k' == k then None else Get(d, k')
    ensures Delete(d, k) != [] ==> d != [] && AtMost(d[0].key, Delete(d, k)[0].key)
  {
    if d != [] {
      SortedTail(d);
      LessIrreflexive(d[0].key);
      if d[0].key == k {
        if |d| > 1 {
          LessAsymmetric(d[0].key, d[1].key);
        }
        GetAbove(d[1..], k);
      } else {
        DeleteSound(d[1..], k, k');
        var rest := Delete(d[1..], k);
        if rest != [] {
          LessAtMost(d[0].key, d[1].key, rest[0].key);
        }
        SortedCons(d[0], rest);
        assert ([d[0]] + rest)[1..] == rest;
      }
    }
  }

  lemma {:induction false} GetMember(d: Records, k: Bytes, v: Bytes)
    requires Sorted(d)
    ensures Get(d, k) == Some(v) <==> Record(k, v) in d
  {
    if d != [] {
      SortedTail(d);
      GetMember(d[1..], k, v);
      assert d == [d[0]] + d[1..];
      if d[0].key == k {
        forall r | r in d[1..] ensures r.key != k {
          LessAsymmetric(k, r.key);
        }
      }
    }
  }

  ghost predicate SameLookups(d: Records, e: Records) {
    forall k :: Get(d, k) == Get(e, k)
  }

  lemma HeadBound(d: Records, e: Records)
    requires Sorted(e) && d != []
    requires Get(e, d[0].key) == Get(d, d[0].key)
    ensures e != [] && AtMost(e[0].key, d[0].key)
  {
    if e != [] && Less(d[0].key, e[0].key) {
      GetAbove(e, d[0].key);
    }
  }

  /** Two ordered maps with the same lookups are the same list. */
  lemma {:induction false} Extensional(d: Records, e: Records)
    requires Sorted(d) && Sorted(e)
    requires SameLookups(d, e)
    ensures d == e
  {
    if d != [] || e != [] {
      if d != [] { HeadBound(d, e); }
      if e != [] { HeadBound(e, d); }
      LessTotal(d[0].key, e[0].key);
      SortedTail(d);
      SortedTail(e);
      forall k ensures Get(d[1..], k) == Get(e[1..], k) {
        assert Get(d, k) == Get(e, k);
        if k == d[0].key {
          GetAbove(d[1..], k);
          GetAbove(e[1..], k);
        }
      }
      Extensional(d[1..], e[1..]);
      assert Get(d, d[0].key) == Get(e, d[0].key);
      assert d == [d[0]] + d[1..] && e == [e[0]] + e[1..];
    }
  }

  // ----- ranges -----

  lemma {:induction false} SelectMembers(d: Records, start: Option<Bytes>, end: Option<Bytes>, r: Record)
    ensures r in Select(d, start, end) <==> r in d && InBounds(r.key, start, end)
  {
    if d != [] {
      SelectMembers(d[1..], start, end, r);
      assert d == [d[0]] + d[1..];
    }
  }

  lemma {:induction false} SelectSorted(d: Records, start: Option<Bytes>, end: Option<Bytes>)
    requires Sorted(d)
    ensures Sorted(Select(d, start, end))
  {
    if d != [] {
      SortedTail(d);
      SelectSorted(d[1..], start, end);
      var rest := Select(d[1..], start, end);
      if rest != [] {
        SelectMembers(d[1..], start, end, rest[0]);
      }
      if InBounds(d[0].key, start, end) {
        SortedCons(d[0], rest);
      } else {
        assert Select(d, start, end) == rest;
      }
    }
  }

  /** An inverted interval selects nothing, so the guard in `Range` never hides a record. */
  lemma {:induction false} InvertedSelectsNothing(d: Records, start: Bytes, end: Bytes)
    requires Less(end, start)
    ensures Select(d, Some(start), Some(end)) == []
  {
    if d != [] {
      InvertedSelectsNothing(d[1..], start, end);
      if InBounds(d[0].key, Some(start), Some(end)) {
        AtMostLess(start, d[0].key, end);
        LessAsymmetric(end, start);
      }
    }
  }

  lemma RangeIsSelect(d: Records, start: Option<Bytes>, end: Option<Bytes>, order: Order)
    ensures Range(d, start, end, order) ==
            if order == Ascending then Select(d, start, end) else Reverse(Select(d, start, end))
  {
    if start.Some? && end.Some? && Less(end.value, start.value) {
      InvertedSelectsNothing(d, start.value, end.value);
    }
  }

  /** What a range yields: the stored records with `start <= key < end`, each once, in the asked order. */
  lemma RangeSound(d: Records, start: Option<Bytes>, end: Option<Bytes>, order: Order)
    requires Sorted(d)
    ensures forall r :: r in Range(d, start, end, order) <==> r in d && InBounds(r.key, start, end)
    ensures forall i, j | 0 <= i < j < |Range(d, start, end, order)| ::
              var a, b := Range(d, start, end, order)[i].key, Range(d, start, end, order)[j].key;
              if order == Ascending then Less(a, b) else Less(b, a)
  {
    RangeIsSelect(d, start, end, order);
    var s := Select(d, start, end);
    SelectSorted(d, start, end);
    ReverseAt(s);
    forall r ensures r in Range(d, start, end, order) <==> r in d && InBounds(r.key, start, end) {
      SelectMembers(d, start, end, r);
      if r in s {
        var i :| 0 <= i < |s| && s[i] == r;
        assert Reverse(s)[|s| - 1 - i] == r;
      }
    }
  }
}
