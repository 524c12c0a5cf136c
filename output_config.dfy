/**
 * `getOutputConfig` (plugin.js): for each chunk named in the usage map, the
 * sprite set names its icons go to and, per symbol id, the set name of the
 * last icon that wrote it. The plugin never calls it; it is modelled as
 * written.
 */
module OutputConfig {
  import opened JsObject
  import opened Seqs
  import opened Usage
  import opened ChunkNames
  import opened Buckets

  /** What `result[chunk.name]` holds: the `sets` array and one entry per symbol id. */
  datatype ChunkConfig = ChunkConfig(sets: seq<string>, symbols: Table<string>)

  type Output = Table<ChunkConfig>

  /** Every result object's symbol entries form a well-formed table, as the result's own keys do. */
  ghost predicate Wf(out: Output) {
    out.Valid() && forall k :: k in out.vals ==> out.vals[k].symbols.Valid()
  }

  /** Writing a symbol id `sets` replaces the array by a string, whose `push` is undefined. */
  const NoPush := "TypeError: curResult.sets.push is not a function"

  /** The property key `chunk.name` reads: a string value has no `name`, so the key is "undefined". */
  function PropertyKey(v: UsageValue): string {
    match NameProperty(v)
    case None => "undefined"
    case Some(n) => n
  }

  /** `items.filter(item => item.resource === entry).map(item => item.symbol.id)` */
  function SymbolIds(items: seq<SymbolItem>, entry: string): seq<string> {
    if items == [] then []
    else
      var last := items[|items| - 1];
      SymbolIds(items[..|items| - 1], entry) + (if last.resource == entry then [last.symbol.id] else [])
  }

  /** The ids listed for an entry are exactly the symbol ids of the items whose resource it is. */
  lemma {:induction false} SymbolIdsOfEntry(items: seq<SymbolItem>, entry: string)
    ensures forall s :: s in SymbolIds(items, entry) <==>
      exists m :: 0 <= m < |items| && items[m].resource == entry && items[m].symbol.id == s
  {
    if items != [] {
      var prefix := items[..|items| - 1];
      SymbolIdsOfEntry(prefix, entry);
      assert forall m :: 0 <= m < |items| - 1 ==> prefix[m] == items[m];
    }
  }

  /** `syms.forEach(symbol => { curResult[symbol] = setName; })` on the symbol entries. */
  function MarkAll(t: Table<string>, syms: seq<string>, setName: string): (r: Table<string>)
    requires t.Valid()
    ensures r.Valid()
  {
    if syms == [] then t
    else MarkAll(t, syms[..|syms| - 1], setName).Put(syms[|syms| - 1], setName)
  }

  /** Every id of `syms` now holds `setName`; every other entry is kept. */
  lemma {:induction false} MarkAllValues(t: Table<string>, syms: seq<string>, setName: string)
    requires t.Valid()
    ensures var r := MarkAll(t, syms, setName);
      && (forall s :: s in r.vals <==> s in t.vals || s in syms)
      && (forall s :: s in syms ==> r.vals[s] == setName)
      && (forall s :: s in t.vals && s !in syms ==> r.vals[s] == t.vals[s])
  {
    if syms != [] {
      MarkAllValues(t, syms[..|syms| - 1], setName);
      assert forall s :: s in syms ==> s in syms[..|syms| - 1] || s == syms[|syms| - 1];
    }
  }

  /** A fresh `{ sets: [] }`. */
  function Fresh(): ChunkConfig {
    ChunkConfig([], Empty())
  }

  /**
   * One chunk of an entry: its result object (created on first use) gets
   * every symbol id of the entry mapped to `setName`, then `setName` pushed on
   * its `sets`; a symbol id `sets` makes that push throw.
   */
  function AddChunk(out: Output, key: string, setName: string, syms: seq<string>): (r: Result<Output>)
    requires Wf(out)
    ensures r.Ok? ==> Wf(r.value)
  {
    var cur := if key in out.vals then out.vals[key] else Fresh();
    if "sets" in syms then Err(NoPush)
    else Ok(out.Put(key, ChunkConfig(cur.sets + [setName], MarkAll(cur.symbols, syms, setName))))
  }

  /**
   * A chunk that does not throw pushes `setName` on its result object's
   * `sets`, writes `setName` under each symbol id, and leaves the other
   * symbol entries and the other result objects as they were.
   */
  lemma AddChunkRecords(out: Output, key: string, setName: string, syms: seq<string>)
    requires Wf(out) && AddChunk(out, key, setName, syms).Ok?
    ensures var r := AddChunk(out, key, setName, syms).value;
      var cur := if key in out.vals then out.vals[key] else Fresh();
      && key in r.vals
      && r.vals[key].sets == cur.sets + [setName]
      && (forall s :: s in syms ==> s in r.vals[key].symbols.vals && r.vals[key].symbols.vals[s] == setName)
      && (forall s :: s in cur.symbols.vals && s !in syms ==>
            s in r.vals[key].symbols.vals && r.vals[key].symbols.vals[s] == cur.symbols.vals[s])
      && (forall k :: k in out.vals && k != key ==> k in r.vals && r.vals[k] == out.vals[k])
  {
    var cur := if key in out.vals then out.vals[key] else Fresh();
    var marked := MarkAll(cur.symbols, syms, setName);
    MarkAllValues(cur.symbols, syms, setName);
    assert AddChunk(out, key, setName, syms).value == out.Put(key, ChunkConfig(cur.sets + [setName], marked));
  }

  /** The first `n` chunks of one entry, in list order; the first error stops everything. */
  function ChunksAfter(out: Output, chunks: seq<UsageValue>, setName: string, syms: seq<string>, n: nat): (r: Result<Output>)
    requires Wf(out) && n <= |chunks|
    ensures r.Ok? ==> Wf(r.value)
  {
    if n == 0 then Ok(out)
    else
      match ChunksAfter(out, chunks, setName, syms, n - 1)
      case Err(e) => Err(e)
      case Ok(o) => AddChunk(o, PropertyKey(chunks[n - 1]), setName, syms)
  }

  /** The first `n` entries of the usage map, in key order. */
  function OutputAfter(template: string, items: seq<SymbolItem>, usage: UsageMap, ids: Table<nat>, n: nat): (r: Result<Output>)
    requires usage.Valid() && n <= |usage.keys|
    ensures r.Ok? ==> Wf(r.value)
  {
    if n == 0 then Ok(Empty())
    else
      var entry := usage.keys[n - 1];
      match OutputAfter(template, items, usage, ids, n - 1)
      case Err(e) => Err(e)
      case Ok(o) => ChunksAfter(o, usage.vals[entry], SetName(template, ids.Get(entry)), SymbolIds(items, entry), |usage.vals[entry]|)
  }

  /** What `getOutputConfig` returns, or the TypeError it raises. */
  function Config(items: seq<SymbolItem>, usage: UsageMap, ids: Table<nat>): Result<Output>
    requires usage.Valid()
  {
    if items == [] then Err(NoSpriteFilename)
    else OutputAfter(items[0].spriteFilename, items, usage, ids, |usage.keys|)
  }

  /** Once a chunk has thrown, the later chunks of the entry are never reached. */
  lemma {:induction false} ChunksErrSticks(out: Output, chunks: seq<UsageValue>, setName: string, syms: seq<string>, n: nat, m: nat)
    requires Wf(out) && n <= m <= |chunks|
    requires ChunksAfter(out, chunks, setName, syms, n).Err?
    ensures ChunksAfter(out, chunks, setName, syms, m) == ChunksAfter(out, chunks, setName, syms, n)
    decreases m
  {
    if n < m {
      ChunksErrSticks(out, chunks, setName, syms, n, m - 1);
    }
  }

  /** Once an entry has thrown, the later entries are never reached. */
  lemma {:induction false} OutputErrSticks(template: string, items: seq<SymbolItem>, usage: UsageMap, ids: Table<nat>, n: nat, m: nat)
    requires usage.Valid() && n <= m <= |usage.keys|
    requires OutputAfter(template, items, usage, ids, n).Err?
    ensures OutputAfter(template, items, usage, ids, m) == OutputAfter(template, items, usage, ids, n)
    decreases m
  {
    if n < m {
      OutputErrSticks(template, items, usage, ids, n, m - 1);
    }
  }

  /** The `symbols.forEach` loop writing `setName` under each symbol id. */
  method MarkSymbols(t: Table<string>, syms: seq<string>, setName: string) returns (r: Table<string>)
    requires t.Valid()
    ensures r == MarkAll(t, syms, setName)
  {
    r := t;
    for j := 0 to |syms|
      invariant r.Valid() && r == MarkAll(t, syms[..j], setName)
    {
      assert syms[..j + 1][..j] == syms[..j];
      r := r.Put(syms[j], setName);
    }
    assert syms[..|syms|] == syms;
  }

  /**
   * One chunk: the result object for its key, created as `{ sets: [] }` when
   * missing, gets the entry's symbol ids, then `setName` pushed on `sets`;
   * a symbol id `sets` has replaced that array, so the push throws.
   */
  method VisitChunk(out: Output, key: string, setName: string, syms: seq<string>) returns (r: Result<Output>)
    requires Wf(out)
    ensures r == AddChunk(out, key, setName, syms)
  {
    var cur := if key in out.vals then out.vals[key] else Fresh();
    var symbols := MarkSymbols(cur.symbols, syms, setName);
    if "sets" in syms {
      return Err(NoPush);
    }
    r := Ok(out.Put(key, ChunkConfig(cur.sets + [setName], symbols)));
  }

  /** The symbol ids cached per entry are the entry's own. */
  ghost predicate Cached(cache: map<string, seq<string>>, items: seq<SymbolItem>) {
    forall e :: e in cache ==> cache[e] == SymbolIds(items, e)
  }

  /** The body of `chunks.forEach(...)` for chunk `j` of an entry. */
  method VisitEntryChunk(template: string, items: seq<SymbolItem>, ids: Table<nat>, svgEntry: string, chunks: seq<UsageValue>,
                         j: nat, out0: Output, out: Output, cache0: map<string, seq<string>>)
    returns (r: Result<Output>, cache: map<string, seq<string>>)
    requires j < |chunks| && Wf(out0) && Cached(cache0, items)
    requires ChunksAfter(out0, chunks, SetName(template, ids.Get(svgEntry)), SymbolIds(items, svgEntry), j) == Ok(out)
    ensures Cached(cache, items)
    ensures r == ChunksAfter(out0, chunks, SetName(template, ids.Get(svgEntry)), SymbolIds(items, svgEntry), j + 1)
  {
    var setName := ProcessChunkName(template, [("index", IndexText(ids.Get(svgEntry)))]);
    cache := cache0;
    if svgEntry !in cache {
      cache := cache[svgEntry := SymbolIds(items, svgEntry)];
    }
    var symbols := cache[svgEntry];
    r := VisitChunk(out, PropertyKey(chunks[j]), setName, symbols);
  }

  /** `chunks.forEach(...)` for one entry of the usage map. */
  method VisitEntry(template: string, items: seq<SymbolItem>, ids: Table<nat>, svgEntry: string, chunks: seq<UsageValue>,
                    out0: Output, cache0: map<string, seq<string>>)
    returns (r: Result<Output>, cache: map<string, seq<string>>)
    requires Wf(out0) && Cached(cache0, items)
    ensures Cached(cache, items)
    ensures r == ChunksAfter(out0, chunks, SetName(template, ids.Get(svgEntry)), SymbolIds(items, svgEntry), |chunks|)
  {
    ghost var name := SetName(template, ids.Get(svgEntry));
    ghost var syms := SymbolIds(items, svgEntry);
    cache := cache0;
    var out := out0;
    assert ChunksAfter(out0, chunks, name, syms, 0) == Ok(out);
    for j := 0 to |chunks|
      invariant Cached(cache, items)
      invariant ChunksAfter(out0, chunks, name, syms, j) == Ok(out)
    {
      var res;
      res, cache := VisitEntryChunk(template, items, ids, svgEntry, chunks, j, out0, out, cache);
      if res.Err? {
        ChunksErrSticks(out0, chunks, name, syms, j + 1, |chunks|);
        return res, cache;
      }
      out := res.value;
    }
    r := Ok(out);
  }

  /** One turn of the `for (var svgEntry in svgEntryChunks)` loop. */
  method VisitEntryAt(template: string, items: seq<SymbolItem>, usage: UsageMap, ids: Table<nat>, n: nat,
                      result: Output, cache0: map<string, seq<string>>)
    returns (r: Result<Output>, cache: map<string, seq<string>>)
    requires usage.Valid() && n < |usage.keys| && Cached(cache0, items)
    requires OutputAfter(template, items, usage, ids, n) == Ok(result)
    ensures Cached(cache, items)
    ensures r == OutputAfter(template, items, usage, ids, n + 1)
  {
    var svgEntry := usage.keys[n];
    r, cache := VisitEntry(template, items, ids, svgEntry, usage.vals[svgEntry], result, cache0);
  }

  /** The `for (var svgEntry in svgEntryChunks)` loop, with `spriteFilename` as the template. */
  method VisitEntries(spriteFilename: string, items: seq<SymbolItem>, svgEntryChunks: UsageMap, chunkTargetSetId: Table<nat>)
    returns (r: Result<Output>)
    requires svgEntryChunks.Valid()
    ensures r == OutputAfter(spriteFilename, items, svgEntryChunks, chunkTargetSetId, |svgEntryChunks.keys|)
  {
    var symbolsBySvgEntry: map<string, seq<string>> := map[];
    var result: Output := Empty();
    assert OutputAfter(spriteFilename, items, svgEntryChunks, chunkTargetSetId, 0) == Ok(result);
    for n := 0 to |svgEntryChunks.keys|
      invariant Cached(symbolsBySvgEntry, items)
      invariant OutputAfter(spriteFilename, items, svgEntryChunks, chunkTargetSetId, n) == Ok(result)
    {
      var res;
      res, symbolsBySvgEntry := VisitEntryAt(spriteFilename, items, svgEntryChunks, chunkTargetSetId, n, result, symbolsBySvgEntry);
      if res.Err? {
        OutputErrSticks(spriteFilename, items, svgEntryChunks, chunkTargetSetId, n + 1, |svgEntryChunks.keys|);
        return res;
      }
      result := res.value;
    }
    r := Ok(result);
  }

  /** `getOutputConfig`: every chunk of every entry of the usage map, in order. */
  method GetOutputConfig(items: seq<SymbolItem>, svgEntryChunks: UsageMap, chunkTargetSetId: Table<nat>) returns (r: Result<Output>)
    requires svgEntryChunks.Valid()
    ensures r == Config(items, svgEntryChunks, chunkTargetSetId)
  {
    if items == [] {
      return Err(NoSpriteFilename);
    }
    r := VisitEntries(items[0].spriteFilename, items, svgEntryChunks, chunkTargetSetId);
  }

  /** The property keys of the first `n` chunks. */
  function ChunkKeys(chunks: seq<UsageValue>, n: nat): set<string>
    requires n <= |chunks|
  {
    if n == 0 then {} else ChunkKeys(chunks, n - 1) + {PropertyKey(chunks[n - 1])}
  }

  /** A key is among them exactly when one of those chunks has it. */
  lemma {:induction false} ChunkKeysAre(chunks: seq<UsageValue>, n: nat)
    requires n <= |chunks|
    ensures forall k :: k in ChunkKeys(chunks, n) <==> exists j :: 0 <= j < n && PropertyKey(chunks[j]) == k
  {
    if n > 0 {
      ChunkKeysAre(chunks, n - 1);
    }
  }

  /** A chunk adds its property key to the result objects. */
  lemma AddChunkKeys(out: Output, key: string, setName: string, syms: seq<string>)
    requires Wf(out) && AddChunk(out, key, setName, syms).Ok?
    ensures AddChunk(out, key, setName, syms).value.vals.Keys == out.vals.Keys + {key}
  {
  }

  /** The result objects after some chunks of an entry: those before, plus one per chunk's property key. */
  lemma {:induction false} ChunksKeys(out: Output, chunks: seq<UsageValue>, setName: string, syms: seq<string>, n: nat)
    requires Wf(out) && n <= |chunks| && ChunksAfter(out, chunks, setName, syms, n).Ok?
    ensures ChunksAfter(out, chunks, setName, syms, n).value.vals.Keys == out.vals.Keys + ChunkKeys(chunks, n)
  {
    if n > 0 {
      var prev := ChunksAfter(out, chunks, setName, syms, n - 1);
      var key := PropertyKey(chunks[n - 1]);
      assert prev.Ok? && ChunksAfter(out, chunks, setName, syms, n) == AddChunk(prev.value, key, setName, syms);
      ChunksKeys(out, chunks, setName, syms, n - 1);
      AddChunkKeys(prev.value, key, setName, syms);
      assert ChunkKeys(chunks, n) == ChunkKeys(chunks, n - 1) + {key};
    }
  }

  /** A chunk throws exactly when its entry has a symbol id `sets`. */
  lemma {:induction false} ChunksErr(out: Output, chunks: seq<UsageValue>, setName: string, syms: seq<string>, n: nat)
    requires Wf(out) && n <= |chunks|
    ensures ChunksAfter(out, chunks, setName, syms, n).Err? <==> n > 0 && "sets" in syms
  {
    if n > 0 {
      ChunksErr(out, chunks, setName, syms, n - 1);
    }
  }

  /** The property keys of every chunk of the first `n` entries. */
  function EntryKeys(usage: UsageMap, n: nat): set<string>
    requires usage.Valid() && n <= |usage.keys|
  {
    if n == 0 then {}
    else
      var chunks := usage.vals[usage.keys[n - 1]];
      EntryKeys(usage, n - 1) + ChunkKeys(chunks, |chunks|)
  }

  /** A key is among them exactly when some chunk of one of those entries has it. */
  lemma {:induction false} EntryKeysAre(usage: UsageMap, n: nat)
    requires usage.Valid() && n <= |usage.keys|
    ensures forall k :: k in EntryKeys(usage, n) <==>
      exists m, j :: 0 <= m < n && 0 <= j < |usage.vals[usage.keys[m]]| && PropertyKey(usage.vals[usage.keys[m]][j]) == k
  {
    if n > 0 {
      var chunks := usage.vals[usage.keys[n - 1]];
      EntryKeysAre(usage, n - 1);
      ChunkKeysAre(chunks, |chunks|);
    }
  }

  /** The result objects after the first `n` entries: one per property key of their chunks. */
  lemma {:induction false} OutputKeys(template: string, items: seq<SymbolItem>, usage: UsageMap, ids: Table<nat>, n: nat)
    requires usage.Valid() && n <= |usage.keys| && OutputAfter(template, items, usage, ids, n).Ok?
    ensures OutputAfter(template, items, usage, ids, n).value.vals.Keys == EntryKeys(usage, n)
  {
    if n > 0 {
      var entry := usage.keys[n - 1];
      var chunks := usage.vals[entry];
      OutputKeys(template, items, usage, ids, n - 1);
      ChunksKeys(OutputAfter(template, items, usage, ids, n - 1).value, chunks, SetName(template, ids.Get(entry)), SymbolIds(items, entry), |chunks|);
    }
  }

  /** Some entry among the first `n` has a chunk and a symbol id `sets`. */
  ghost predicate HitsSets(items: seq<SymbolItem>, usage: UsageMap, n: nat)
    requires usage.Valid() && n <= |usage.keys|
  {
    exists m :: 0 <= m < n && usage.vals[usage.keys[m]] != [] && "sets" in SymbolIds(items, usage.keys[m])
  }

  /** The entries throw exactly when one of them has a chunk and a symbol id `sets`. */
  lemma {:induction false} OutputErr(template: string, items: seq<SymbolItem>, usage: UsageMap, ids: Table<nat>, n: nat)
    requires usage.Valid() && n <= |usage.keys|
    ensures OutputAfter(template, items, usage, ids, n).Err? <==> HitsSets(items, usage, n)
  {
    if n > 0 {
      var entry := usage.keys[n - 1];
      var chunks := usage.vals[entry];
      OutputErr(template, items, usage, ids, n - 1);
      var prev := OutputAfter(template, items, usage, ids, n - 1);
      if prev.Ok? {
        ChunksErr(prev.value, chunks, SetName(template, ids.Get(entry)), SymbolIds(items, entry), |chunks|);
      }
      assert HitsSets(items, usage, n) <==> HitsSets(items, usage, n - 1) || (chunks != [] && "sets" in SymbolIds(items, entry));
    }
  }

  /**
   * `getOutputConfig` has one result object per property key of a chunk in
   * the usage map, and no other.
   */
  lemma ConfigKeys(items: seq<SymbolItem>, usage: UsageMap, ids: Table<nat>)
    requires usage.Valid()
    ensures var r := Config(items, usage, ids);
      r.Ok? ==> forall k :: k in r.value.vals <==>
        exists m, j :: 0 <= m < |usage.keys| && 0 <= j < |usage.vals[usage.keys[m]]| && PropertyKey(usage.vals[usage.keys[m]][j]) == k
  {
    if items != [] && Config(items, usage, ids).Ok? {
      OutputKeys(items[0].spriteFilename, items, usage, ids, |usage.keys|);
      EntryKeysAre(usage, |usage.keys|);
    }
  }

  /**
   * With the plain strings the loader records, every chunk's `name` is
   * undefined, so all entries share the one result object keyed "undefined".
   */
  lemma LoaderStringsShareOneResult(items: seq<SymbolItem>, usage: UsageMap, ids: Table<nat>)
    requires usage.Valid()
    requires forall k :: k in usage.vals ==> AllStrings(usage.vals[k])
    ensures var r := Config(items, usage, ids);
      r.Ok? ==> forall k :: k in r.value.vals ==> k == "undefined"
  {
    ConfigKeys(items, usage, ids);
  }

  /**
   * `getOutputConfig` throws exactly when there is no symbol item, or when
   * an entry with at least one chunk has a symbol whose id is `sets`.
   */
  lemma ConfigErr(items: seq<SymbolItem>, usage: UsageMap, ids: Table<nat>)
    requires usage.Valid()
    ensures Config(items, usage, ids).Err? <==>
      items == [] || exists m :: 0 <= m < |usage.keys| && usage.vals[usage.keys[m]] != [] && "sets" in SymbolIds(items, usage.keys[m])
  {
    if items != [] {
      OutputErr(items[0].spriteFilename, items, usage, ids, |usage.keys|);
    }
  }
}
