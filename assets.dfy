/**
 * The plugin's `additionalAssets` handler. When symbols were collected it
 * numbers the usage map's keys, buckets the symbol items into sprites, turns
 * each sprite's `[chunkcode]` into a digest of its rendered symbols, maps
 * every symbol id to its sprite's final file name and, once every sprite has
 * been built, merges that map into the module-wide mapping cache.
 *
 * Rendering a symbol, the MD5 digest and building a sprite are foreign calls:
 * they are the parameters `render`, `digest` and `spriteOk` (whether the
 * sprite for a list of symbols is built or its promise rejects).
 */
module Assets {
  import opened JsObject
  import opened JsStrings
  import opened Usage
  import opened Partition
  import opened Buckets
  import opened OutputConfig

  const ChunkCode: string := "[chunkcode]"

  /** `itemsByEntry[filename].map(item => item.symbol)` */
  function SpriteSymbols(bucket: seq<SymbolItem>): seq<Symbol> {
    seq(|bucket|, i requires 0 <= i < |bucket| => bucket[i].symbol)
  }

  /** The ids of the symbols, in order. */
  function Ids(syms: seq<Symbol>): seq<string> {
    seq(|syms|, i requires 0 <= i < |syms| => syms[i].id)
  }

  /** `spriteSymbols.map(symbol => symbol.render()).join('')` */
  function Content(syms: seq<Symbol>, render: Symbol -> string): string {
    Join(seq(|syms|, i requires 0 <= i < |syms| => render(syms[i])), "")
  }

  /** The file name a sprite is emitted under. */
  function FinalFilename(filename: string, syms: seq<Symbol>, render: Symbol -> string, digest: string -> string): string {
    if Includes(filename, ChunkCode) then ReplaceFirst(filename, ChunkCode, digest(Content(syms, render)))
    else filename
  }

  /**
   * A name without `[chunkcode]` is kept; otherwise its first `[chunkcode]`
   * becomes the digest of the sprite's rendered content and any later copy
   * stays. The name depends on the symbols only through that content.
   */
  lemma FinalFilenameSpec(filename: string, syms: seq<Symbol>, render: Symbol -> string, digest: string -> string)
    ensures var f := FinalFilename(filename, syms, render, digest);
      && ((forall j: nat :: !OccursAt(filename, ChunkCode, j)) ==> f == filename)
      && (forall i: nat :: FirstOccurrence(filename, ChunkCode, i) ==>
            f == filename[..i] + digest(Content(syms, render)) + filename[i + |ChunkCode|..])
  {
    IncludesIff(filename, ChunkCode);
    ReplaceFirstSpec(filename, ChunkCode, digest(Content(syms, render)));
  }

  /** The symbols of the `m`-th sprite. */
  function SymbolsOf(b: Buckets, m: nat): seq<Symbol>
    requires b.Valid() && m < |b.keys|
  {
    SpriteSymbols(b.vals[b.keys[m]])
  }

  /** The final file name of the `m`-th sprite. */
  function SpriteName(b: Buckets, m: nat, render: Symbol -> string, digest: string -> string): string
    requires b.Valid() && m < |b.keys|
  {
    FinalFilename(b.keys[m], SymbolsOf(b, m), render, digest)
  }

  /** `outputConfig` once the first `n` sprites have recorded their symbol ids. */
  function ConfigAfter(b: Buckets, render: Symbol -> string, digest: string -> string, n: nat): (c: Table<string>)
    requires b.Valid() && n <= |b.keys|
    ensures c.Valid()
  {
    if n == 0 then Empty()
    else MarkAll(ConfigAfter(b, render, digest, n - 1), Ids(SymbolsOf(b, n - 1)), SpriteName(b, n - 1, render, digest))
  }

  /** `outputConfig` once every sprite has recorded its symbol ids. */
  function SpriteConfig(b: Buckets, render: Symbol -> string, digest: string -> string): (c: Table<string>)
    requires b.Valid()
    ensures c.Valid()
  {
    ConfigAfter(b, render, digest, |b.keys|)
  }

  /** The first `n` sprites are built. */
  predicate BuiltUpTo(b: Buckets, spriteOk: seq<Symbol> -> bool, n: nat)
    requires b.Valid() && n <= |b.keys|
  {
    forall m :: 0 <= m < n ==> spriteOk(SymbolsOf(b, m))
  }

  /** How the handler ends. */
  datatype Outcome =
    | Skipped             // no symbol items: `done()` straight away
    | Threw(error: string) // bucketing threw before any promise was made
    | Rejected            // a sprite's promise rejected: `done(e)`
    | Finished(processed: bool) // every sprite built; whether `processOutput` was called

  datatype Handled = Handled(outcome: Outcome, cache: Table<string>)

  /**
   * The handler on a mapping cache: its outcome and the cache it leaves.
   * The merge into the cache happens only when every sprite is built and
   * `processOutput` is a function.
   */
  function Handle(cache: Table<string>, items: seq<SymbolItem>, usage: UsageMap,
                  render: Symbol -> string, digest: string -> string,
                  spriteOk: seq<Symbol> -> bool, processOutput: bool): (h: Handled)
    requires cache.Valid() && usage.Valid()
    ensures h.cache.Valid()
    ensures h.outcome != Finished(true) ==> h.cache == cache
  {
    if items == [] then Handled(Skipped, cache)
    else
      var ids := ChunkIds(usage);
      match ItemsByTargetSet(items, ids)
      case Err(e) => Handled(Threw(e), cache)
      case Ok(b) =>
        BucketsValid(items, ids);
        if !BuiltUpTo(b, spriteOk, |b.keys|) then Handled(Rejected, cache)
        else if !processOutput then Handled(Finished(false), cache)
        else Handled(Finished(true), Assign(cache, SpriteConfig(b, render, digest)))
  }

  /** The module-level `mappingCache` object, updated in place by each merge. */
  class MappingCache {
    var cache: Table<string>

    ghost predicate Valid()
      reads this
    {
      cache.Valid()
    }

    /** `let mappingCache = {}` */
    constructor ()
      ensures Valid() && cache == Empty()
    {
      cache := Empty();
    }
  }

  /** One sprite: its final name, its symbol ids recorded under that name, and whether it is built. */
  method VisitSprite(b: Buckets, n: nat, outputConfig: Table<string>,
                     render: Symbol -> string, digest: string -> string, spriteOk: seq<Symbol> -> bool)
    returns (config: Table<string>, built: bool)
    requires b.Valid() && n < |b.keys| && outputConfig == ConfigAfter(b, render, digest, n)
    ensures config == ConfigAfter(b, render, digest, n + 1)
    ensures built == spriteOk(SymbolsOf(b, n))
  {
    var filename := b.keys[n];
    var spriteSymbols := SpriteSymbols(b.vals[filename]);
    if Includes(filename, ChunkCode) {
      var hash := digest(Content(spriteSymbols, render));
      filename := ReplaceFirst(filename, ChunkCode, hash);
    }
    config := MarkSymbols(outputConfig, Ids(spriteSymbols), filename);
    built := spriteOk(spriteSymbols);
  }

  /** The mapper run over every sprite; the combined promise resolves only if every sprite is built. */
  method BuildSprites(b: Buckets, render: Symbol -> string, digest: string -> string, spriteOk: seq<Symbol> -> bool)
    returns (outputConfig: Table<string>, built: bool)
    requires b.Valid()
    ensures outputConfig == SpriteConfig(b, render, digest)
    ensures built == BuiltUpTo(b, spriteOk, |b.keys|)
  {
    outputConfig := Empty();
    built := true;
    for n := 0 to |b.keys|
      invariant outputConfig == ConfigAfter(b, render, digest, n)
      invariant built == BuiltUpTo(b, spriteOk, n)
    {
      var ok;
      outputConfig, ok := VisitSprite(b, n, outputConfig, render, digest, spriteOk);
      built := built && ok;
    }
  }

  /** The `additionalAssets` handler. */
  method AdditionalAssets(mappingCache: MappingCache, items: seq<SymbolItem>, svgEntryChunks: UsageMap,
                          render: Symbol -> string, digest: string -> string,
                          spriteOk: seq<Symbol> -> bool, processOutput: bool)
    returns (outcome: Outcome)
    requires mappingCache.Valid() && svgEntryChunks.Valid()
    modifies mappingCache
    ensures mappingCache.Valid()
    ensures Handle(old(mappingCache.cache), items, svgEntryChunks, render, digest, spriteOk, processOutput)
      == Handled(outcome, mappingCache.cache)
  {
    if items == [] {
      return Skipped;
    }
    var chunkTargetSetId := SvgChunkIds(svgEntryChunks);
    var itemsByEntry := GetItemsByTargetSet(items, chunkTargetSetId);
    if itemsByEntry.Err? {
      return Threw(itemsByEntry.error);
    }
    BucketsValid(items, chunkTargetSetId);
    var outputConfig, built := BuildSprites(itemsByEntry.value, render, digest, spriteOk);
    if !built {
      return Rejected;
    }
    if processOutput {
      mappingCache.cache := Assign(mappingCache.cache, outputConfig);
      return Finished(true);
    }
    return Finished(false);
  }

  /** The symbol ids of the first `n` sprites. */
  function IdsUpTo(b: Buckets, n: nat): set<string>
    requires b.Valid() && n <= |b.keys|
  {
    if n == 0 then {} else IdsUpTo(b, n - 1) + ToSet(Ids(SymbolsOf(b, n - 1)))
  }

  function ToSet(s: seq<string>): set<string> {
    set k | k in s
  }

  /** `outputConfig` has a key for each symbol id of the sprites so far, and no other. */
  lemma {:induction false} ConfigKeysAreSymbolIds(b: Buckets, render: Symbol -> string, digest: string -> string, n: nat)
    requires b.Valid() && n <= |b.keys|
    ensures ConfigAfter(b, render, digest, n).vals.Keys == IdsUpTo(b, n)
  {
    if n > 0 {
      ConfigKeysAreSymbolIds(b, render, digest, n - 1);
      MarkAllValues(ConfigAfter(b, render, digest, n - 1), Ids(SymbolsOf(b, n - 1)), SpriteName(b, n - 1, render, digest));
    }
  }

  /** No sprite after the `m`-th, up to the `n`-th, holds symbol id `k`. */
  predicate LastHolder(b: Buckets, m: nat, k: string, n: nat)
    requires b.Valid() && m < n <= |b.keys|
  {
    && k in Ids(SymbolsOf(b, m))
    && forall l :: m < l < n ==> k !in Ids(SymbolsOf(b, l))
  }

  /**
   * A symbol id maps to the final name of the last sprite so far that holds
   * it: a later sprite overwrites an earlier one.
   */
  lemma {:induction false} LastSpriteWins(b: Buckets, render: Symbol -> string, digest: string -> string, n: nat)
    requires b.Valid() && n <= |b.keys|
    ensures var c := ConfigAfter(b, render, digest, n);
      forall m, k :: 0 <= m < n && LastHolder(b, m, k, n) ==> k in c.vals && c.vals[k] == SpriteName(b, m, render, digest)
  {
    if n > 0 {
      var prev := ConfigAfter(b, render, digest, n - 1);
      LastSpriteWins(b, render, digest, n - 1);
      MarkAllValues(prev, Ids(SymbolsOf(b, n - 1)), SpriteName(b, n - 1, render, digest));
      var c := ConfigAfter(b, render, digest, n);
      forall m, k | 0 <= m < n && LastHolder(b, m, k, n)
        ensures k in c.vals && c.vals[k] == SpriteName(b, m, render, digest)
      {
        if m < n - 1 {
          assert LastHolder(b, m, k, n - 1);
          assert k !in Ids(SymbolsOf(b, n - 1));
        }
      }
    }
  }

  /**
   * The merge into the mapping cache is additive: when the handler finishes
   * with `processOutput`, every key no sprite mentions keeps its old value,
   * and the symbol ids of the sprites are added or overwritten.
   */
  lemma MergeIsAdditive(cache: Table<string>, items: seq<SymbolItem>, usage: UsageMap, b: Buckets,
                        render: Symbol -> string, digest: string -> string, spriteOk: seq<Symbol> -> bool)
    requires cache.Valid() && usage.Valid()
    requires ItemsByTargetSet(items, ChunkIds(usage)) == Ok(b)
    ensures b.Valid()
    ensures var h := Handle(cache, items, usage, render, digest, spriteOk, true);
      h.outcome == Finished(true) ==>
        && (forall k :: k in h.cache.vals <==> k in cache.vals || k in IdsUpTo(b, |b.keys|))
        && (forall k :: k in cache.vals && k !in IdsUpTo(b, |b.keys|) ==> h.cache.vals[k] == cache.vals[k])
  {
    BucketsValid(items, ChunkIds(usage));
    ConfigKeysAreSymbolIds(b, render, digest, |b.keys|);
    var h := Handle(cache, items, usage, render, digest, spriteOk, true);
    if h.outcome == Finished(true) {
      assert h.cache == Assign(cache, SpriteConfig(b, render, digest));
    }
  }

  /**
   * After a merge every symbol id holds the final name of the last sprite
   * that contains it.
   */
  lemma MergedIdsNameTheirSprite(cache: Table<string>, items: seq<SymbolItem>, usage: UsageMap, b: Buckets,
                                 render: Symbol -> string, digest: string -> string, spriteOk: seq<Symbol> -> bool)
    requires cache.Valid() && usage.Valid()
    requires ItemsByTargetSet(items, ChunkIds(usage)) == Ok(b)
    ensures b.Valid()
    ensures var h := Handle(cache, items, usage, render, digest, spriteOk, true);
      h.outcome == Finished(true) ==>
        forall m, k :: 0 <= m < |b.keys| && LastHolder(b, m, k, |b.keys|) ==>
          k in h.cache.vals && h.cache.vals[k] == SpriteName(b, m, render, digest)
  {
    BucketsValid(items, ChunkIds(usage));
    LastSpriteWins(b, render, digest, |b.keys|);
    var h := Handle(cache, items, usage, render, digest, spriteOk, true);
    if h.outcome == Finished(true) {
      assert h.cache == Assign(cache, SpriteConfig(b, render, digest));
    }
  }

  /** With no symbol items the handler finishes at once and the cache is untouched. */
  lemma NoSymbolsNoChange(cache: Table<string>, usage: UsageMap, render: Symbol -> string, digest: string -> string,
                          spriteOk: seq<Symbol> -> bool, processOutput: bool)
    requires cache.Valid() && usage.Valid()
    ensures Handle(cache, [], usage, render, digest, spriteOk, processOutput) == Handled(Skipped, cache)
  {
  }

  /** A sprite that is not built rejects the whole map: `done(e)` and no merge. */
  lemma FailedSpriteNoMerge(cache: Table<string>, items: seq<SymbolItem>, usage: UsageMap, b: Buckets,
                            render: Symbol -> string, digest: string -> string,
                            spriteOk: seq<Symbol> -> bool, processOutput: bool, m: nat)
    requires cache.Valid() && usage.Valid()
    requires ItemsByTargetSet(items, ChunkIds(usage)) == Ok(b)
    requires b.Valid() && m < |b.keys| && !spriteOk(SymbolsOf(b, m))
    ensures Handle(cache, items, usage, render, digest, spriteOk, processOutput) == Handled(Rejected, cache)
  {
  }
}
