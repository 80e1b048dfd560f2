/** The mutable storages: the memory store, a prefixed window onto it, and the typed `Bucket` and
    `Singleton` that serialize values into it. */
module TypedStorage {
  import opened Wrappers
  import opened Bytes
  import opened OrderedMap
  import opened LengthPrefixed
  import opened NamespaceHelpers
  import S = Storage

  class MemoryStorage {
    var data: Records

    ghost predicate Valid()
      reads this
    {
      Sorted(data)
    }

    constructor ()
      ensures Valid() && data == []
    {
      data := [];
    }

    method Set(key: Bytes, value: Bytes) returns (r: Result<()>)
      requires Valid()
      modifies this
      ensures Valid()
      ensures value == [] ==> r == Err(S.EMPTY_VALUE) && data == old(data)
      ensures value != [] ==> r == Ok(()) && data == Put(old(data), key, value)
    {
      if value == [] {
        return Err(S.EMPTY_VALUE);
      }
      PutSound(data, key, value, key);
      data := Put(data, key, value);
      r := Ok(());
    }

    method Remove(key: Bytes)
      requires Valid()
      modifies this
      ensures Valid() && data == Delete(old(data), key)
    {
      DeleteSound(data, key, key);
      data := Delete(data, key);
    }
  }

  /** Prefixes that are not in line: neither starts the other. */
  predicate Apart(p: Bytes, q: Bytes) {
    !(p <= q) && !(q <= p)
  }

  /** A window onto a memory store. Each window behaves as a map of its own, and windows of other
      namespaces see none of its writes. */
  class PrefixedStorage {
    const storage: MemoryStorage
    const prefix: Bytes

    ghost predicate Valid()
      reads this, storage
    {
      storage.Valid()
    }

    constructor (storage: MemoryStorage, namespace: Bytes)
      requires storage.Valid() && Fits(namespace)
      ensures Valid() && this.storage == storage && prefix == Enc(namespace)
    {
      this.storage := storage;
      prefix := Enc(namespace);
    }

    constructor Multilevel(storage: MemoryStorage, namespaces: seq<Bytes>)
      requires storage.Valid() && AllFit(namespaces)
      ensures Valid() && this.storage == storage && prefix == EncNested(namespaces)
    {
      this.storage := storage;
      var r, _ := ToLengthPrefixedNested(namespaces);
      prefix := r.value;
    }

    ghost function Contents(): Records
      reads this, storage
    {
      S.View(storage.data, prefix)
    }

    method Get(key: Bytes) returns (value: Option<Bytes>)
      requires Valid()
      ensures value == OrderedMap.Get(Contents(), key)
    {
      S.ViewGet(storage.data, prefix, key);
      assert S.GetKey(S.Memory(storage.data), prefix + key) == OrderedMap.Get(storage.data, prefix + key);
      value := S.GetKey(S.Prefixed(S.Memory(storage.data), prefix), key);
    }

    method Set(key: Bytes, value: Bytes) returns (r: Result<()>)
      requires Valid()
      modifies storage
      ensures Valid()
      ensures r == if value == [] then Err(S.EMPTY_VALUE) else Ok(())
      ensures Contents() == if r.Ok? then Put(old(Contents()), key, value) else old(Contents())
      ensures forall q | Apart(prefix, q) :: S.View(storage.data, q) == old(S.View(storage.data, q))
    {
      ghost var d := storage.data;
      r := storage.Set(prefix + key, value);
      if value != [] {
        S.ViewPut(d, prefix, key, value);
        forall q | Apart(prefix, q) ensures S.View(storage.data, q) == S.View(d, q) {
          S.ViewIndependent(d, prefix, q, key, value);
        }
      }
    }

    method Remove(key: Bytes)
      requires Valid()
      modifies storage
      ensures Valid()
      ensures Contents() == Delete(old(Contents()), key)
      ensures forall q | Apart(prefix, q) :: S.View(storage.data, q) == old(S.View(storage.data, q))
    {
      ghost var d := storage.data;
      storage.Remove(prefix + key);
      S.ViewDelete(d, prefix, key);
      forall q | Apart(prefix, q) ensures S.View(storage.data, q) == S.View(d, q) {
        S.ViewIndependent(d, prefix, q, key, []);
      }
    }

    /** What the lazy iterator yields, step by step. */
    method Range(start: Option<Bytes>, end: Option<Bytes>, order: Order) returns (items: seq<Result<Record>>)
      requires Valid()
      ensures items == if end.None? && AllOnes(prefix) then []
                       else S.WindowItems(storage.data, prefix, start, end, order)
      ensures end.Some? || (!AllOnes(prefix) && !S.HasSpurious(storage.data, prefix)) ==>
                items == S.Yielded(OrderedMap.Range(Contents(), start, end, order))
    {
      WindowRange(storage.data, prefix, start, end, order);
      items := S.Items(S.Prefixed(S.Memory(storage.data), prefix), start, end, order);
    }
  }

  lemma WindowRange(d: Records, prefix: Bytes, start: Option<Bytes>, end: Option<Bytes>, order: Order)
    requires Sorted(d)
    ensures S.Items(S.Prefixed(S.Memory(d), prefix), start, end, order) ==
            if end.None? && AllOnes(prefix) then [] else S.WindowItems(d, prefix, start, end, order)
    ensures end.Some? || (!AllOnes(prefix) && !S.HasSpurious(d, prefix)) ==>
              S.Items(S.Prefixed(S.Memory(d), prefix), start, end, order)
              == S.Yielded(OrderedMap.Range(S.View(d, prefix), start, end, order))
  {
    if end.None? && AllOnes(prefix) {
      S.AllOnesRangeEmpty(d, prefix, start, order);
    } else {
      S.ItemsExact(d, prefix, start, end, order);
    }
  }

  /** Any two distinct namespace lists of the same depth give windows that are apart. */
  lemma SameDepthApart(xs: seq<Bytes>, ys: seq<Bytes>)
    requires AllFit(xs) && AllFit(ys) && |xs| == |ys| && xs != ys
    ensures Apart(EncNested(xs), EncNested(ys))
  {
    NestedPrefixIff(xs, ys);
    NestedPrefixIff(ys, xs);
  }

  // ----- typed access -----

  /** A serializer. */
  datatype Codec<!T> = Codec(encode: T -> Bytes, decode: Bytes -> Result<T>)

  ghost predicate Lawful<T(!new)>(c: Codec<T>) {
    forall x: T :: c.encode(x) != [] && c.decode(c.encode(x)) == Ok(x)
  }

  function MayDeserialize<T>(c: Codec<T>, value: Option<Bytes>): Result<Option<T>> {
    if value == None then Ok(None) else
    var x :- c.decode(value.value);
    Ok(Some(x))
  }

  function MustDeserialize<T>(c: Codec<T>, value: Option<Bytes>): Result<T> {
    if value == None then Err(NotFound) else c.decode(value.value)
  }

  /** `deserialize_kv`. */
  function Typed<T>(c: Codec<T>, r: Record): Result<(Bytes, T)> {
    var x :- c.decode(r.value);
    Ok((r.key, x))
  }

  function TypedItems<T>(c: Codec<T>, items: seq<Result<Record>>): seq<Result<Result<(Bytes, T)>>> {
    seq(|items|, i requires 0 <= i < |items| =>
      if items[i].Err? then Err(items[i].error) else Ok(Typed(c, items[i].value)))
  }

  /** Typed values under a prefix. */
  datatype Bucket<!T> = Bucket(storage: MemoryStorage, prefix: Bytes, codec: Codec<T>) {

    method Save(key: Bytes, x: T) returns (r: Result<()>)
      requires storage.Valid()
      modifies storage
      ensures storage.Valid()
      ensures codec.encode(x) == [] ==> r == Err(S.EMPTY_VALUE) && storage.data == old(storage.data)
      ensures codec.encode(x) != [] ==>
                r == Ok(()) && storage.data == Put(old(storage.data), prefix + key, codec.encode(x))
    {
      r := storage.Set(prefix + key, codec.encode(x));
    }

    method Remove(key: Bytes)
      requires storage.Valid()
      modifies storage
      ensures storage.Valid() && storage.data == Delete(old(storage.data), prefix + key)
    {
      storage.Remove(prefix + key);
    }

    method Load(key: Bytes) returns (r: Result<T>)
      ensures r == MustDeserialize(codec, Get(storage.data, prefix + key))
    {
      r := MustDeserialize(codec, Get(storage.data, prefix + key));
    }

    method MayLoad(key: Bytes) returns (r: Result<Option<T>>)
      ensures r == MayDeserialize(codec, Get(storage.data, prefix + key))
    {
      r := MayDeserialize(codec, Get(storage.data, prefix + key));
    }

    /** The lazy iterator over the records under the prefix, each deserialized on its own. An outer error is a
        panic of the iteration, an inner one a record that does not parse. */
    method Range(start: Option<Bytes>, end: Option<Bytes>, order: Order)
      returns (items: seq<Result<Result<(Bytes, T)>>>)
      requires storage.Valid()
      ensures items == TypedItems(codec, if end.None? && AllOnes(prefix) then []
                                         else S.WindowItems(storage.data, prefix, start, end, order))
    {
      WindowRange(storage.data, prefix, start, end, order);
      items := TypedItems(codec, S.Items(S.Prefixed(S.Memory(storage.data), prefix), start, end, order));
    }

    /** Load, act, store. A failure of any of the three leaves the store as it was. */
    method Update(key: Bytes, action: Option<T> -> Result<T>) returns (r: Result<T>)
      requires storage.Valid()
      modifies storage
      ensures storage.Valid()
      ensures r.Err? ==> storage.data == old(storage.data)
      ensures var input := MayDeserialize(codec, old(Get(storage.data, prefix + key)));
              && (input.Err? ==> r == Err(input.error))
              && (input.Ok? && action(input.value).Err? ==> r == action(input.value))
              && (input.Ok? && action(input.value).Ok? ==>
                    if codec.encode(action(input.value).value) == [] then r == Err(S.EMPTY_VALUE)
                    else && r == action(input.value)
                         && storage.data == Put(old(storage.data), prefix + key, codec.encode(r.value)))
    {
      var input := MayLoad(key);
      if input.Err? {
        return Err(input.error);
      }
      var output := action(input.value);
      if output.Err? {
        return output;
      }
      var saved := Save(key, output.value);
      if saved.Err? {
        return Err(saved.error);
      }
      return output;
    }
  }

  /** A typed range and the point loads tell the same story: the range has an entry for a key exactly when the
      key lies between the bounds and has a value, and the entry is what loading that key gives. */
  lemma RangeAgreesWithLoads<T>(d: Records, c: Codec<T>, prefix: Bytes, start: Option<Bytes>, end: Option<Bytes>,
                                order: Order, key: Bytes)
    requires Sorted(d)
    ensures var found := Get(d, prefix + key);
            var records := OrderedMap.Range(S.View(d, prefix), start, end, order);
            && ((exists i :: 0 <= i < |records| && records[i].key == key) <==> InBounds(key, start, end) && found.Some?)
            && forall i | 0 <= i < |records| && records[i].key == key ::
                 var x := MustDeserialize(c, found);
                 Typed(c, records[i]) == if x.Ok? then Ok((key, x.value)) else Err(x.error)
  {
    var view := S.View(d, prefix);
    var records := OrderedMap.Range(view, start, end, order);
    S.ViewSorted(d, prefix);
    S.ViewGet(d, prefix, key);
    RangeSound(view, start, end, order);
    var found := Get(view, key);
    forall i | 0 <= i < |records| && records[i].key == key
      ensures found == Some(records[i].value) && InBounds(key, start, end)
    {
      assert records[i] in records;
      GetMember(view, key, records[i].value);
    }
    if found.Some? && InBounds(key, start, end) {
      GetMember(view, key, found.value);
      assert Record(key, found.value) in records;
    }
  }

  /** A write or, without a value, a removal through some namespace path. */
  datatype Change = Change(path: seq<Bytes>, key: Bytes, value: Option<Bytes>)

  function RawKey(path: seq<Bytes>, key: Bytes): Bytes
    requires AllFit(path)
  {
    EncNested(path) + key
  }

  function Changed(d: Records, ch: Change): Records
    requires AllFit(ch.path)
  {
    if ch.value.Some? then Put(d, RawKey(ch.path, ch.key), ch.value.value) else Delete(d, RawKey(ch.path, ch.key))
  }

  ghost predicate AllPathsFit(chs: seq<Change>) {
    forall i | 0 <= i < |chs| :: AllFit(chs[i].path)
  }

  function ChangedAll(d: Records, chs: seq<Change>): Records
    requires AllPathsFit(chs)
    decreases |chs|
  {
    if chs == [] then d else ChangedAll(Changed(d, chs[0]), chs[1..])
  }

  /** The change is under another path of the same depth, or under another key of the same path. */
  ghost predicate Elsewhere(ch: Change, path: seq<Bytes>, key: Bytes) {
    |ch.path| == |path| && (ch.path != path || ch.key != key)
  }

  lemma ElsewhereApart(ch: Change, path: seq<Bytes>, key: Bytes)
    requires AllFit(ch.path) && AllFit(path) && Elsewhere(ch, path, key)
    ensures RawKey(ch.path, ch.key) != RawKey(path, key)
  {
    if ch.path != path {
      NoCollisions(ch.path, path, ch.key, key);
    } else {
      assert RawKey(path, key)[|EncNested(path)|..] == key && RawKey(path, ch.key)[|EncNested(path)|..] == ch.key;
    }
  }

  lemma {:induction false} ChangesElsewhere(d: Records, chs: seq<Change>, path: seq<Bytes>, key: Bytes)
    requires Sorted(d) && AllFit(path) && AllPathsFit(chs)
    requires forall i | 0 <= i < |chs| :: Elsewhere(chs[i], path, key)
    ensures Sorted(ChangedAll(d, chs)) && Get(ChangedAll(d, chs), RawKey(path, key)) == Get(d, RawKey(path, key))
    decreases |chs|
  {
    if chs != [] {
      var k := RawKey(chs[0].path, chs[0].key);
      ElsewhereApart(chs[0], path, key);
      if chs[0].value.Some? {
        PutSound(d, k, chs[0].value.value, RawKey(path, key));
      } else {
        DeleteSound(d, k, RawKey(path, key));
      }
      ChangesElsewhere(Changed(d, chs[0]), chs[1..], path, key);
    }
  }

  /** What was saved under a path and key is what is loaded, for any lawful serializer and after any sequence of
      writes and removals under other paths of the same depth and other keys of the same path. */
  lemma SavedValueSurvives<T(!new)>(d: Records, c: Codec<T>, path: seq<Bytes>, key: Bytes, x: T, chs: seq<Change>)
    requires Sorted(d) && Lawful(c) && AllFit(path) && AllPathsFit(chs)
    requires forall i | 0 <= i < |chs| :: Elsewhere(chs[i], path, key)
    ensures var saved := Put(d, RawKey(path, key), c.encode(x));
            MustDeserialize(c, Get(ChangedAll(saved, chs), RawKey(path, key))) == Ok(x)
  {
    PutSound(d, RawKey(path, key), c.encode(x), RawKey(path, key));
    ChangesElsewhere(Put(d, RawKey(path, key), c.encode(x)), chs, path, key);
  }

  /** One typed value. */
  datatype Singleton<!T> = Singleton(storage: MemoryStorage, key: Bytes, codec: Codec<T>) {

    method Save(x: T) returns (r: Result<()>)
      requires storage.Valid()
      modifies storage
      ensures storage.Valid()
      ensures codec.encode(x) == [] ==> r == Err(S.EMPTY_VALUE) && storage.data == old(storage.data)
      ensures codec.encode(x) != [] ==> r == Ok(()) && storage.data == Put(old(storage.data), key, codec.encode(x))
    {
      r := storage.Set(key, codec.encode(x));
    }

    method Load() returns (r: Result<T>)
      ensures r == MustDeserialize(codec, Get(storage.data, key))
    {
      r := MustDeserialize(codec, Get(storage.data, key));
    }

    method Update(action: T -> Result<T>) returns (r: Result<T>)
      requires storage.Valid()
      modifies storage
      ensures storage.Valid()
      ensures r.Err? ==> storage.data == old(storage.data)
      ensures var input := MustDeserialize(codec, old(Get(storage.data, key)));
              && (input.Err? ==> r == Err(input.error))
              && (input.Ok? && action(input.value).Err? ==> r == action(input.value))
              && (input.Ok? && action(input.value).Ok? ==>
                    if codec.encode(action(input.value).value) == [] then r == Err(S.EMPTY_VALUE)
                    else && r == action(input.value)
                         && storage.data == Put(old(storage.data), key, codec.encode(r.value)))
    {
      var input := Load();
      if input.Err? {
        return Err(input.error);
      }
      var output := action(input.value);
      if output.Err? {
        return output;
      }
      var saved := Save(output.value);
      if saved.Err? {
        return Err(saved.error);
      }
      return output;
    }
  }
}
