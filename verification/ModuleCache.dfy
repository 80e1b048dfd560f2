/** The module cache of the virtual machine: Wasm files on disk, compiled modules on disk, in a bounded memory
    cache, and pinned in memory. */
module ModuleCache {
  import opened Wrappers
  import opened Bytes

  type Checksum = Bytes
  type Artifact = Bytes

  /** A module is compiled code together with the memory limit of the store it belongs to. Serializing it to
      the file system keeps the code only. */
  datatype Module = Module(artifact: Artifact, limit: Option<nat>)

  /** The memory cache may be switched off, and refuses modules that are too heavy for it. */
  datatype MemoryLayer = Off | On(fits: Module -> bool)

  datatype Env = Env(
    limit: nat,
    generate: Bytes -> Checksum,
    check: Bytes -> Result<()>,
    compile: Bytes -> Result<Artifact>,
    memoryLayer: MemoryLayer)

  datatype Stats = Stats(pinned: nat, memory: nat, fs: nat, misses: nat)

  datatype Cache = Cache(
    files: map<Checksum, Bytes>,
    pinned: map<Checksum, Module>,
    memory: map<Checksum, Module>,
    fs: map<Checksum, Artifact>,
    stats: Stats)

  const TOO_HEAVY := Generic("module exceeds the memory cache")
  const NO_FILE := Generic("Error opening Wasm file for reading")
  const INTEGRITY := Generic("integrity error")

  function Compile(env: Env, wasm: Bytes, limit: Option<nat>): Result<Module> {
    var artifact :- env.compile(wasm);
    Ok(Module(artifact, limit))
  }

  /** The file is opened for writing but not truncated. */
  function WriteFile(before: Option<Bytes>, content: Bytes): Bytes {
    if before.Some? && |before.value| > |content| then content + before.value[|content|..] else content
  }

  function FileAt(s: Cache, c: Checksum): Option<Bytes> {
    if c in s.files then Some(s.files[c]) else None
  }

  function LoadWasm(env: Env, s: Cache, c: Checksum): Result<Bytes> {
    if c !in s.files then Err(NO_FILE)
    else if env.generate(s.files[c]) != c then Err(INTEGRITY)
    else Ok(s.files[c])
  }

  function MemoryStore(env: Env, s: Cache, c: Checksum, m: Module): Result<Cache> {
    match env.memoryLayer
    case Off => Ok(s)
    case On(fits) => if fits(m) then Ok(s.(memory := s.memory[c := m])) else Err(TOO_HEAVY)
  }

  datatype Reply<T> = Reply(cache: Cache, result: Result<T>)

  function SaveWasm(env: Env, s: Cache, wasm: Bytes): Reply<Checksum> {
    var checked := env.check(wasm);
    if checked.Err? then Reply(s, Err(checked.error)) else
    var compiled := Compile(env, wasm, None);
    if compiled.Err? then Reply(s, Err(compiled.error)) else
    var c := env.generate(wasm);
    Reply(s.(files := s.files[c := WriteFile(FileAt(s, c), wasm)], fs := s.fs[c := compiled.value.artifact]), Ok(c))
  }

  function GetModule(env: Env, s: Cache, c: Checksum): Reply<Module> {
    if c in s.pinned then
      Reply(s.(stats := s.stats.(pinned := s.stats.pinned + 1)), Ok(s.pinned[c]))
    else if c in s.memory then
      Reply(s.(stats := s.stats.(memory := s.stats.memory + 1)), Ok(s.memory[c]))
    else if c in s.fs then
      var s1 := s.(stats := s.stats.(fs := s.stats.fs + 1));
      Remember(env, s1, c, Module(s.fs[c], Some(env.limit)))
    else
      var wasm := LoadWasm(env, s, c);
      if wasm.Err? then Reply(s, Err(wasm.error)) else
      var s1 := s.(stats := s.stats.(misses := s.stats.misses + 1));
      var m := Compile(env, wasm.value, Some(env.limit));
      if m.Err? then Reply(s1, Err(m.error)) else
      Remember(env, s1.(fs := s1.fs[c := m.value.artifact]), c, m.value)
  }

  function Remember(env: Env, s: Cache, c: Checksum, m: Module): Reply<Module> {
    var stored := MemoryStore(env, s, c, m);
    if stored.Err? then Reply(s, Err(stored.error)) else Reply(stored.value, Ok(m))
  }

  function Pin(env: Env, s: Cache, c: Checksum): Reply<()> {
    if c in s.pinned then Reply(s, Ok(()))
    else if c in s.memory then
      Reply(s.(stats := s.stats.(memory := s.stats.memory + 1), pinned := s.pinned[c := s.memory[c]]), Ok(()))
    else if c in s.fs then
      var m := Module(s.fs[c], Some(env.limit));
      Reply(s.(stats := s.stats.(fs := s.stats.fs + 1), pinned := s.pinned[c := m]), Ok(()))
    else
      var wasm := LoadWasm(env, s, c);
      if wasm.Err? then Reply(s, Err(wasm.error)) else
      var m := Compile(env, wasm.value, Some(env.limit));
      if m.Err? then Reply(s, Err(m.error)) else
      Reply(s.(fs := s.fs[c := m.value.artifact], pinned := s.pinned[c := m.value]), Ok(()))
  }

  function Unpin(s: Cache, c: Checksum): Cache {
    s.(pinned := s.pinned - {c})
  }

  /** The cache object; each method runs under the lock. */
  class CacheInner {
    const env: Env
    var files: map<Checksum, Bytes>
    var pinned: map<Checksum, Module>
    var memory: map<Checksum, Module>
    var fs: map<Checksum, Artifact>
    var stats: Stats

    constructor (env: Env, files: map<Checksum, Bytes>, fs: map<Checksum, Artifact>)
      ensures this.env == env && View() == Fresh(files, fs)
    {
      this.env := env;
      this.files := files;
      this.fs := fs;
      pinned := map[];
      memory := map[];
      stats := Stats(0, 0, 0, 0);
    }

    function View(): Cache
      reads this
    {
      Cache(files, pinned, memory, fs, stats)
    }

    method Save(wasm: Bytes) returns (r: Result<Checksum>)
      modifies this
      ensures Reply(View(), r) == SaveWasm(env, old(View()), wasm)
    {
      var checked := env.check(wasm);
      if checked.Err? { return Err(checked.error); }
      var compiled := Compile(env, wasm, None);
      if compiled.Err? { return Err(compiled.error); }
      var c := env.generate(wasm);
      var before := if c in files then Some(files[c]) else None;
      files := files[c := WriteFile(before, wasm)];
      fs := fs[c := compiled.value.artifact];
      return Ok(c);
    }

    method Get(c: Checksum) returns (r: Result<Module>)
      modifies this
      ensures Reply(View(), r) == GetModule(env, old(View()), c)
    {
      if c in pinned {
        stats := stats.(pinned := stats.pinned + 1);
        return Ok(pinned[c]);
      }
      if c in memory {
        stats := stats.(memory := stats.memory + 1);
        return Ok(memory[c]);
      }
      if c in fs {
        stats := stats.(fs := stats.fs + 1);
        var m := Module(fs[c], Some(env.limit));
        r := StoreInMemory(c, m);
        return;
      }
      var wasm := LoadWasm(env, View(), c);
      if wasm.Err? { return Err(wasm.error); }
      stats := stats.(misses := stats.misses + 1);
      var m := Compile(env, wasm.value, Some(env.limit));
      if m.Err? { return Err(m.error); }
      fs := fs[c := m.value.artifact];
      r := StoreInMemory(c, m.value);
    }

    method StoreInMemory(c: Checksum, m: Module) returns (r: Result<Module>)
      modifies this
      ensures Reply(View(), r) == Remember(env, old(View()), c, m)
    {
      if env.memoryLayer.On? {
        if !env.memoryLayer.fits(m) {
          return Err(TOO_HEAVY);
        }
        memory := memory[c := m];
      }
      return Ok(m);
    }

    method PinModule(c: Checksum) returns (r: Result<()>)
      modifies this
      ensures Reply(View(), r) == Pin(env, old(View()), c)
    {
      if c in pinned { return Ok(()); }
      if c in memory {
        stats := stats.(memory := stats.memory + 1);
        pinned := pinned[c := memory[c]];
        return Ok(());
      }
      if c in fs {
        stats := stats.(fs := stats.fs + 1);
        pinned := pinned[c := Module(fs[c], Some(env.limit))];
        return Ok(());
      }
      var wasm := LoadWasm(env, View(), c);
      if wasm.Err? { return Err(wasm.error); }
      var m := Compile(env, wasm.value, Some(env.limit));
      if m.Err? { return Err(m.error); }
      fs := fs[c := m.value.artifact];
      pinned := pinned[c := m.value];
      return Ok(());
    }

    method UnpinModule(c: Checksum)
      modifies this
      ensures View() == Unpin(old(View()), c)
    {
      pinned := pinned - {c};
    }
  }

  function Fresh(files: map<Checksum, Bytes>, fs: map<Checksum, Artifact>): Cache {
    Cache(files, map[], map[], fs, Stats(0, 0, 0, 0))
  }

  // ----- histories -----

  /** Calls, evictions from the memory cache, compiled modules lost with a change of the module format, and
      restarts of the node. */
  datatype Event =
    | Save(wasm: Bytes)
    | Get(c: Checksum)
    | PinIt(c: Checksum)
    | UnpinIt(c: Checksum)
    | Evict(gone: set<Checksum>)
    | LoseModules(gone: set<Checksum>)
    | Restart

  function Step(env: Env, s: Cache, e: Event): Cache {
    match e
    case Save(wasm) => SaveWasm(env, s, wasm).cache
    case Get(c) => GetModule(env, s, c).cache
    case PinIt(c) => Pin(env, s, c).cache
    case UnpinIt(c) => Unpin(s, c)
    case Evict(gone) => s.(memory := s.memory - gone)
    case LoseModules(gone) => s.(fs := s.fs - gone)
    case Restart => Fresh(s.files, s.fs)
  }

  function Run(env: Env, s: Cache, es: seq<Event>): Cache
    decreases |es|
  {
    if es == [] then s else Run(env, Step(env, s, es[0]), es[1..])
  }

  /** No two different codes of this set share a checksum. */
  ghost predicate CollisionFree(env: Env, codes: set<Bytes>) {
    forall x, y | x in codes && y in codes :: env.generate(x) == env.generate(y) ==> x == y
  }

  /** The codes a history saves. */
  ghost predicate SavesOnly(es: seq<Event>, codes: set<Bytes>) {
    forall i | 0 <= i < |es| :: es[i].Save? ==> es[i].wasm in codes
  }

  /** What the layers should hold for a checksum: the compiled code of its file. */
  ghost predicate Genuine(env: Env, s: Cache, c: Checksum, artifact: Artifact) {
    c in s.files && env.compile(s.files[c]) == Ok(artifact)
  }

  /** Every file carries its own checksum and compiles; every layer holds what compiling the file gives. */
  ghost predicate Inv(env: Env, s: Cache, codes: set<Bytes>) {
    && (forall c | c in s.files :: s.files[c] in codes && env.generate(s.files[c]) == c && env.compile(s.files[c]).Ok?)
    && (forall c | c in s.fs :: Genuine(env, s, c, s.fs[c]))
    && (forall c | c in s.memory :: Genuine(env, s, c, s.memory[c].artifact) && s.memory[c].limit == Some(env.limit))
    && (forall c | c in s.pinned :: Genuine(env, s, c, s.pinned[c].artifact) && s.pinned[c].limit == Some(env.limit))
  }

  /** Saving over an existing file rewrites the same bytes. */
  lemma SaveKeeps(env: Env, s: Cache, codes: set<Bytes>, wasm: Bytes)
    requires Inv(env, s, codes) && CollisionFree(env, codes) && wasm in codes
    ensures var r := SaveWasm(env, s, wasm);
            && Inv(env, r.cache, codes)
            && (r.result.Ok? <==> env.check(wasm).Ok? && env.compile(wasm).Ok?)
            && (forall c | c in s.files :: c in r.cache.files && r.cache.files[c] == s.files[c])
            && (r.result.Ok? ==> r.result.value in r.cache.files && r.cache.files[r.result.value] == wasm
                                 && r.result.value == env.generate(wasm))
  {
    var r := SaveWasm(env, s, wasm);
    if r.result.Ok? {
      var c := env.generate(wasm);
      if c in s.files {
        assert s.files[c] == wasm;
      }
      var s1 := s.(files := s.files[c := wasm]);
      NewFileKeeps(env, s, codes, wasm);
      FsKeeps(env, s1, codes, c, env.compile(wasm).value);
      assert r.cache == s1.(fs := s1.fs[c := env.compile(wasm).value]);
    }
  }

  lemma NewFileKeeps(env: Env, s: Cache, codes: set<Bytes>, wasm: Bytes)
    requires Inv(env, s, codes) && wasm in codes && env.compile(wasm).Ok?
    requires env.generate(wasm) in s.files ==> s.files[env.generate(wasm)] == wasm
    ensures Inv(env, s.(files := s.files[env.generate(wasm) := wasm]), codes)
  {
    var s1 := s.(files := s.files[env.generate(wasm) := wasm]);
    assert forall c, a :: Genuine(env, s, c, a) ==> Genuine(env, s1, c, a);
  }

  function Total(t: Stats): nat {
    t.pinned + t.memory + t.fs + t.misses
  }

  lemma GetKeeps(env: Env, s: Cache, codes: set<Bytes>, c: Checksum)
    requires Inv(env, s, codes)
    ensures var s' := GetModule(env, s, c).cache;
            Inv(env, s', codes) && s'.files == s.files
  {
    if c in s.pinned {
      StatsAside(env, s, codes, s.stats.(pinned := s.stats.pinned + 1));
    } else if c in s.memory {
      StatsAside(env, s, codes, s.stats.(memory := s.stats.memory + 1));
    } else if c in s.fs {
      FromFs(env, s, codes, c);
    } else if c in s.files {
      FromFile(env, s, codes, c);
    }
  }

  lemma FromFs(env: Env, s: Cache, codes: set<Bytes>, c: Checksum)
    requires Inv(env, s, codes) && c in s.fs
    ensures var r := Remember(env, s.(stats := s.stats.(fs := s.stats.fs + 1)), c, Module(s.fs[c], Some(env.limit)));
            Inv(env, r.cache, codes) && r.cache.files == s.files
  {
    var s1 := s.(stats := s.stats.(fs := s.stats.fs + 1));
    StatsAside(env, s, codes, s1.stats);
    RememberKeeps(env, s1, codes, c, Module(s.fs[c], Some(env.limit)));
  }

  lemma FromFile(env: Env, s: Cache, codes: set<Bytes>, c: Checksum)
    requires Inv(env, s, codes) && c !in s.pinned && c !in s.memory && c !in s.fs && c in s.files
    ensures var r := GetModule(env, s, c); Inv(env, r.cache, codes) && r.cache.files == s.files
  {
    var s1 := s.(stats := s.stats.(misses := s.stats.misses + 1));
    StatsAside(env, s, codes, s1.stats);
    var artifact := env.compile(s.files[c]).value;
    var s2 := s1.(fs := s1.fs[c := artifact]);
    FsKeeps(env, s1, codes, c, artifact);
    RememberKeeps(env, s2, codes, c, Module(artifact, Some(env.limit)));
    assert GetModule(env, s, c) == Remember(env, s2, c, Module(artifact, Some(env.limit)));
  }

  lemma GetCounts(env: Env, s: Cache, codes: set<Bytes>, c: Checksum)
    requires Inv(env, s, codes)
    ensures Total(GetModule(env, s, c).cache.stats) == Total(s.stats) + if c in s.files then 1 else 0
  {
  }

  lemma StatsAside(env: Env, s: Cache, codes: set<Bytes>, t: Stats)
    requires Inv(env, s, codes)
    ensures Inv(env, s.(stats := t), codes)
  {
    assert forall c, a :: Genuine(env, s, c, a) ==> Genuine(env, s.(stats := t), c, a);
  }

  lemma FsKeeps(env: Env, s: Cache, codes: set<Bytes>, c: Checksum, artifact: Artifact)
    requires Inv(env, s, codes) && Genuine(env, s, c, artifact)
    ensures Inv(env, s.(fs := s.fs[c := artifact]), codes)
  {
    assert forall x, a :: Genuine(env, s, x, a) ==> Genuine(env, s.(fs := s.fs[c := artifact]), x, a);
  }

  lemma RememberKeeps(env: Env, s: Cache, codes: set<Bytes>, c: Checksum, m: Module)
    requires Inv(env, s, codes) && Genuine(env, s, c, m.artifact) && m.limit == Some(env.limit)
    ensures var s' := Remember(env, s, c, m).cache;
            Inv(env, s', codes) && s' == s.(memory := s'.memory)
  {
    var s' := Remember(env, s, c, m).cache;
    assert forall x, a :: Genuine(env, s, x, a) ==> Genuine(env, s', x, a);
  }

  lemma PinKeeps(env: Env, s: Cache, codes: set<Bytes>, c: Checksum)
    requires Inv(env, s, codes)
    ensures var s' := Pin(env, s, c).cache;
            Inv(env, s', codes) && s'.files == s.files
            && Total(s'.stats) == Total(s.stats) + if c !in s.pinned && (c in s.memory || c in s.fs) then 1 else 0
  {
  }

  lemma StepKeeps(env: Env, s: Cache, codes: set<Bytes>, e: Event)
    requires Inv(env, s, codes) && CollisionFree(env, codes) && (e.Save? ==> e.wasm in codes)
    ensures var s' := Step(env, s, e);
            Inv(env, s', codes) && forall c | c in s.files :: c in s'.files && s'.files[c] == s.files[c]
  {
    match e
    case Save(wasm) => SaveKeeps(env, s, codes, wasm);
    case Get(c) => GetKeeps(env, s, codes, c);
    case PinIt(c) => PinKeeps(env, s, codes, c);
    case _ => assert forall c, a :: Genuine(env, s, c, a) ==> Genuine(env, Step(env, s, e), c, a);
  }

  /** For every history, whatever is evicted, lost or restarted. */
  lemma {:induction false} RunKeeps(env: Env, s: Cache, codes: set<Bytes>, es: seq<Event>)
    requires Inv(env, s, codes) && CollisionFree(env, codes) && SavesOnly(es, codes)
    ensures var s' := Run(env, s, es);
            Inv(env, s', codes) && forall c | c in s.files :: c in s'.files && s'.files[c] == s.files[c]
    decreases |es|
  {
    if es != [] {
      StepKeeps(env, s, codes, es[0]);
      RunKeeps(env, Step(env, s, es[0]), codes, es[1..]);
    }
  }

  /** The memory layer takes the module, or is switched off. */
  predicate Accepts(env: Env, m: Module) {
    env.memoryLayer.On? ==> env.memoryLayer.fits(m)
  }

  /** Fetching gives this module, unless it is in no memory layer and the memory cache refuses it; pinning
      always succeeds and pins it. */
  ghost predicate Serves(env: Env, s: Cache, c: Checksum, m: Module) {
    var pin := Pin(env, s, c);
    && (GetModule(env, s, c).result ==
        if c in s.pinned || c in s.memory || Accepts(env, m) then Ok(m) else Err(TOO_HEAVY))
    && pin.result == Ok(()) && c in pin.cache.pinned && pin.cache.pinned[c] == m
  }

  lemma SavedAnswers(env: Env, s: Cache, codes: set<Bytes>, c: Checksum)
    requires Inv(env, s, codes) && c in s.files
    ensures var m := Compile(env, s.files[c], Some(env.limit));
            && m.Ok?
            && Serves(env, s, c, m.value)
  {
  }

  /** After a save, at any later time: loading gives the saved Wasm, and fetching the module, whichever layer
      answers, gives exactly that Wasm compiled for the instance limit. Fetching fails only for a module in no
      memory layer that is too heavy for the memory cache. */
  lemma GetAfterSave(env: Env, codes: set<Bytes>, es: seq<Event>, wasm: Bytes, fs: seq<Event>)
    requires CollisionFree(env, codes) && SavesOnly(es, codes) && wasm in codes && SavesOnly(fs, codes)
    requires SaveWasm(env, Run(env, Fresh(map[], map[]), es), wasm).result.Ok?
    ensures var s1 := SaveWasm(env, Run(env, Fresh(map[], map[]), es), wasm);
            var c, s := s1.result.value, Run(env, s1.cache, fs);
            var m := Compile(env, wasm, Some(env.limit));
            && m.Ok? && LoadWasm(env, s, c) == Ok(wasm)
            && Serves(env, s, c, m.value)
  {
    RunKeeps(env, Fresh(map[], map[]), codes, es);
    var s0 := Run(env, Fresh(map[], map[]), es);
    SaveKeeps(env, s0, codes, wasm);
    var s1 := SaveWasm(env, s0, wasm);
    RunKeeps(env, s1.cache, codes, fs);
    SavedAnswers(env, Run(env, s1.cache, fs), codes, s1.result.value);
  }

  /** The event saves code of this checksum. */
  ghost predicate Saves(env: Env, e: Event, c: Checksum) {
    e.Save? && env.check(e.wasm).Ok? && env.compile(e.wasm).Ok? && env.generate(e.wasm) == c
  }

  lemma {:induction false} FilesAreTheSaved(env: Env, s: Cache, es: seq<Event>, c: Checksum)
    ensures c in Run(env, s, es).files <==> c in s.files || exists i :: 0 <= i < |es| && Saves(env, es[i], c)
    decreases |es|
  {
    if es != [] {
      var s1 := Step(env, s, es[0]);
      assert c in s1.files <==> c in s.files || Saves(env, es[0], c);
      FilesAreTheSaved(env, s1, es[1..], c);
      if i :| 0 <= i < |es| && Saves(env, es[i], c) {
        assert i > 0 ==> es[1..][i - 1] == es[i];
      }
    }
  }

  /** In any history from an empty disk, whatever was evicted, lost or restarted: a checksum is refused as
      missing exactly when nothing of that checksum was ever saved, and then the refusal leaves no trace. */
  lemma RefusedIffNeverSaved(env: Env, codes: set<Bytes>, es: seq<Event>, c: Checksum)
    requires CollisionFree(env, codes) && SavesOnly(es, codes)
    ensures var s := Run(env, Fresh(map[], map[]), es);
            var saved := exists i :: 0 <= i < |es| && Saves(env, es[i], c);
            && (GetModule(env, s, c).result == Err(NO_FILE) <==> !saved)
            && (Pin(env, s, c).result == Err(NO_FILE) <==> !saved)
            && (!saved ==> GetModule(env, s, c).cache == s && Pin(env, s, c).cache == s)
  {
    var s0 := Fresh(map[], map[]);
    RunKeeps(env, s0, codes, es);
    FilesAreTheSaved(env, s0, es, c);
    var s := Run(env, s0, es);
    if c in s.files {
      SavedAnswers(env, s, codes, c);
      assert |NO_FILE.msg| != |TOO_HEAVY.msg|;
    }
  }

  /** A saved module that a memory cache refuses as too heavy is compiled and stored, and still not served. */
  lemma HeavyModuleIsRefused(wasm: Bytes, artifact: Artifact, limit: nat)
    ensures var refuses := On((m: Module) => false);
            var env := Env(limit, (x: Bytes) => x, (x: Bytes) => Ok(()), (x: Bytes) => Ok(artifact), refuses);
            var saved := SaveWasm(env, Fresh(map[], map[]), wasm);
            saved.result == Ok(wasm) && GetModule(env, saved.cache, wasm).result == Err(TOO_HEAVY)
  {
  }

  /** Between a pin and its unpin (or a restart) every fetch is served from the pinned layer. */
  lemma {:induction false} PinnedServes(env: Env, s: Cache, c: Checksum, es: seq<Event>)
    requires c in s.pinned
    requires forall i | 0 <= i < |es| :: es[i] != UnpinIt(c) && es[i] != Restart
    ensures var s' := Run(env, s, es);
            && c in s'.pinned && s'.pinned[c] == s.pinned[c]
            && GetModule(env, s', c) == Reply(s'.(stats := s'.stats.(pinned := s'.stats.pinned + 1)), Ok(s.pinned[c]))
    decreases |es|
  {
    if es != [] {
      PinnedServes(env, Step(env, s, es[0]), c, es[1..]);
    }
  }

  /** From an unpin to the next pin no fetch is served from the pinned layer. */
  lemma {:induction false} UnpinReleases(env: Env, s: Cache, c: Checksum, es: seq<Event>)
    requires forall i | 0 <= i < |es| :: es[i] != PinIt(c)
    ensures var s' := Run(env, Unpin(s, c), es);
            c !in s'.pinned && GetModule(env, s', c).cache.stats.pinned == s'.stats.pinned
  {
    StaysUnpinned(env, Unpin(s, c), c, es);
  }

  lemma {:induction false} StaysUnpinned(env: Env, s: Cache, c: Checksum, es: seq<Event>)
    requires c !in s.pinned && forall i | 0 <= i < |es| :: es[i] != PinIt(c)
    ensures c !in Run(env, s, es).pinned
    decreases |es|
  {
    if es != [] {
      StaysUnpinned(env, Step(env, s, es[0]), c, es[1..]);
    }
  }

  // ----- counters -----

  /** Fetches of saved modules, and pins answered by the memory cache or the file system. */
  ghost function Counted(env: Env, s: Cache, es: seq<Event>): nat
    decreases |es|
  {
    if es == [] then 0
    else
      (if es[0].Get? && es[0].c in s.files then 1
       else if es[0].PinIt? && es[0].c !in s.pinned && (es[0].c in s.memory || es[0].c in s.fs) then 1
       else 0)
      + Counted(env, Step(env, s, es[0]), es[1..])
  }

  ghost predicate NoRestart(es: seq<Event>) {
    forall i | 0 <= i < |es| :: !es[i].Restart?
  }

  /** The four counters together count exactly the fetches plus the pins served from memory or disk. */
  lemma {:induction false} CountersAddUp(env: Env, s: Cache, codes: set<Bytes>, es: seq<Event>)
    requires Inv(env, s, codes) && CollisionFree(env, codes) && SavesOnly(es, codes) && NoRestart(es)
    ensures Total(Run(env, s, es).stats) == Total(s.stats) + Counted(env, s, es)
    decreases |es|
  {
    if es != [] {
      StepKeeps(env, s, codes, es[0]);
      CountStep(env, s, codes, es[0]);
      CountersAddUp(env, Step(env, s, es[0]), codes, es[1..]);
    }
  }

  lemma CountStep(env: Env, s: Cache, codes: set<Bytes>, e: Event)
    requires Inv(env, s, codes) && !e.Restart?
    ensures Total(Step(env, s, e).stats) == Total(s.stats) +
            if e.Get? && e.c in s.files then 1
            else if e.PinIt? && e.c !in s.pinned && (e.c in s.memory || e.c in s.fs) then 1
            else 0
  {
    if e.Get? {
      GetCounts(env, s, codes, e.c);
    } else if e.PinIt? {
      PinKeeps(env, s, codes, e.c);
    }
  }
}
