# SVG sprite loader and plugin, modelled in Dafny

This project models the two pieces of sequential logic in a webpack SVG-sprite
plugin and its loader, and proves properties of the model.

The **loader** (`loader.js`) runs once for each icon module that webpack loads.
1. It picks the compiler whose sprite plugin receives the report. A child
   compiler goes exactly one level up, to its parent compilation's compiler.
2. It derives an entry name. In `optimize` mode this is the basename, minus
   `.css`, of the module at the top of the `issuer` chain. Otherwise it is the
   sentinel `single-entry`.
3. It creates the plugin's `usageMap` when that map is still undefined.
4. It records the entry name under the icon's resource path.

The **plugin** (`plugin.js`) reads that usage map once all modules are
processed.
- `getUniqueCommonChunksName` makes a signature for each icon: the `name`
  of every usage value, `&`-joined in list order.
- `getSVGChunkID` numbers the distinct signatures in first-seen order.
- `processChunkName` fills `[key]` placeholders of the `spriteFilename`
  template.
- `getItemsByTargetSet` buckets the symbol items by the file name their index
  gives them.
- The `additionalAssets` handler turns each bucket's `[chunkcode]` into a
  digest of the bucket's rendered symbols. It maps every symbol id to its
  sprite's final file name. When every sprite has been built and
  `processOutput` is a function, it merges that map into the module-level
  `mappingCache`.
- `getOutputConfig` builds a per-chunk table of sprite-set names. The plugin
  never calls it, and it is modelled as written.

JavaScript objects used as dictionaries are modelled as `JsObject.Table`: a key
sequence in insertion order plus a map. `for…in`, `Object.keys` and
`Object.assign` visit the keys in that order. Strings are `seq<char>`.
Foreign calls are function-typed parameters:
- `render` is `symbol.render()`.
- `digest` is the MD5 hex digest.
- `spriteOk` says whether `Sprite.create` resolves for a list of symbols.

The usage map's values are `Usage.UsageValue`. The loader pushes plain strings
(`Str`). The partitioning code was written for chunk objects (`Chunk`) and
reads `.name` from each value. On a string that read is undefined, which the
model makes explicit as `Usage.NameProperty`.

The code differs in several places from what a reader of the plugin would
expect it to do. The model follows the code:
- **Signatures.** A signature meant to identify a set of chunks would be
  sorted and deduplicated. The code joins the values in list order and keeps
  duplicates, and with the loader's strings every name is undefined.
  `Partition.SignatureOrderSensitive`, `Partition.SignatureKeepsDuplicates`,
  `Partition.ReorderedListsSplit` and `Partition.StringListsPartitionByLength`
  state the consequences.
- **Registry resolution.** The code goes exactly one level up, not to the
  root compiler (`Loader.GrandchildTargetIsNotRoot`).
- **Repeated reports.** In `optimize` mode the code appends duplicates rather
  than keeping a set (`Loader.RepeatReportAppends`).
- **Icons without an owner.** An item that no usage entry owns gets the name
  made from an `undefined` index. Unless that name has a bucket, pushing the
  item throws a TypeError, which the model returns as `Threw`.
- **Mapping merge.** The code merges into `mappingCache` only when
  `processOutput` is a function. Otherwise the cache is never updated.

## Model

| member | source | states |
|---|---|---|
| JsObject.Put | loader.js:42 | `obj[k] = v` keeps the table well formed, sets `k` to `v`, keeps an existing key's place and appends a new key last |
| JsObject.Assign | plugin.js:109 | `Object.assign`: the result has the keys of both tables; a source key takes the source value, every other key keeps the target's value, and the target's key order is a prefix of the result's |
| JsStrings.IndexFrom | plugin.js:197 | a position `indexOf` finds lies at or after the start and leaves room for the pattern |
| JsStrings.IndexOfText | plugin.js:197 | a position `indexOf` finds leaves room for the pattern after it |
| JsStrings.IndexFromFinds | plugin.js:197 | `indexOf` from a start position returns the first position at or after it where the pattern stands, or none when it stands nowhere there |
| JsStrings.IndexOfFirst | plugin.js:197 | `indexOf` returns the first occurrence, or none exactly when the pattern occurs nowhere |
| JsStrings.Includes | plugin.js:68 | definition: `s.includes(pat)` is `indexOf` finding a position |
| JsStrings.IncludesIff | plugin.js:68 | `includes` holds exactly when the pattern occurs somewhere |
| JsStrings.ReplaceAt | plugin.js:197 | `replace` with a string pattern puts the replacement in place of the first occurrence and keeps the text around it |
| JsStrings.ReplaceFirst | plugin.js:78 | definition: `s.replace(pat, rep)` with a string pattern, i.e. `s` when `indexOf` finds nothing, otherwise the text before the first occurrence, then `rep`, then the text after it |
| JsStrings.ReplaceFirstSpec | plugin.js:78 | `replace` with a string pattern returns the string unchanged when the pattern is absent, and otherwise replaces only its first occurrence |
| JsStrings.Join | plugin.js:273 | definition: `parts.join(sep)`, the empty string for no parts, the parts with `sep` between consecutive ones otherwise |
| JsStrings.NatToString | plugin.js:136-138 | `String(index)` is a non-empty string of decimal digits |
| JsStrings.NatToStringValue | plugin.js:136-138 | the digits `String(n)` writes denote `n` |
| JsStrings.NatToStringInjective | plugin.js:136-138 | two indices written the same are the same index |
| JsStrings.Basename | loader.js:32 | `path.basename(p, '.css')` is the last path segment less a trailing `.css`, and holds no `/` |
| ChunkNames.Substitute | plugin.js:195-201 | definition: the template after each parameter, in key order, has replaced the first occurrence of its `[key]` placeholder with its value |
| ChunkNames.ProcessChunkName | plugin.js:195-201 | the loop over the parameters replaces, in key order, the first `[key]` placeholder with the parameter's value, as `Substitute` defines |
| ChunkNames.NoTokenUnchanged | plugin.js:195-201 | a template holding none of the parameters' placeholders comes back unchanged |
| ChunkNames.SecondCopyKept | plugin.js:197 | a second copy of a substituted placeholder is left verbatim, shifted by the length difference |
| ChunkNames.OneParamKeepsSecondCopy | plugin.js:195-201 | with a single parameter, as every call site passes, a second copy of its placeholder is left verbatim, shifted by the length difference |
| ChunkNames.PlaceholdersDoNotOverlap | plugin.js:197 | occurrences of two different bracketed placeholders never overlap |
| ChunkNames.KeptAround | plugin.js:197 | text outside the replaced occurrence survives the replacement |
| ChunkNames.OtherPlaceholderKept | plugin.js:197 | one `replace` of a placeholder keeps every other placeholder the string holds |
| ChunkNames.UnnamedPlaceholderKept | plugin.js:195-201 | after the whole loop over the parameters, a placeholder that no parameter names is still in the template, provided the parameters' own placeholders hold no bracket inside |
| Usage.NameProperty | plugin.js:165 | definition: `v.name` is undefined (None) for the loader's plain strings and the chunk's name for a chunk object |
| Loader.SvgCompiler.constructor | loader.js:37-39 | the plugin's `svgCompiler` starts with `usageMap` undefined |
| Loader.TargetCompiler | loader.js:12-17 | a child compiler reports to its parent compilation's compiler, any other compiler to itself |
| Loader.GrandchildTargetIsNotRoot | loader.js:12-17 | a compiler two levels down reports to its parent, which is itself a child and not the root: resolution goes exactly one level up |
| Loader.IssuerRoot | loader.js:28-31 | following `issuer` ends at a module without an issuer, and a module without an issuer is its own root |
| Loader.EntryNameOf | loader.js:27-35 | outside `optimize` mode the entry name is `single-entry`; in `optimize` mode it is a basename and holds no `/` |
| Loader.EntryName | loader.js:27-35 | the `while (module.issuer)` walk yields the basename, minus `.css`, of the issuer chain's root in `optimize` mode, and `single-entry` otherwise |
| Loader.Lazy | loader.js:37-39 | an undefined usage map is replaced by an empty one |
| Loader.Report | loader.js:37-45 | the report leaves a well-formed usage map that holds the path; every other path keeps its list; existing keys keep their order |
| Loader.FirstReport | loader.js:41-42 | the first report for a path stores the singleton list of the entry name, with the path as the last key |
| Loader.RepeatReportIsNoOp | loader.js:41-45 | outside `optimize` mode a later report for a known path changes nothing |
| Loader.RepeatReportAppends | loader.js:43-44 | in `optimize` mode a later report appends the entry name even when present: the list grows by exactly one, its earlier elements stay, and the key order is unchanged |
| Loader.ReportOrderMatters | loader.js:43-44 | reports in a different order give a different usage list |
| Loader.Load | loader.js:7-48 | the loader returns `content` unchanged and leaves the target compiler's usage map as `Report` of the old one, well formed |
| Partition.JoinTexts | plugin.js:270-274 | `.map(chunk => chunk.name)` yields one text per value, in list order, with an undefined name written as the empty string |
| Partition.Signature | plugin.js:270-274 | definition: `getUniqueCommonChunksName` is `Join(JoinTexts(vs), "&")`, the names `&`-joined in list order with duplicates kept |
| Partition.Signatures | plugin.js:249-251 | the signature of each usage key, in key order |
| Partition.PartitionIndex | plugin.js:246-262 | a key's index is the place of its signature among the distinct signatures in first-seen order |
| Partition.ChunkIds | plugin.js:246-262 | the result of `getSVGChunkID` has exactly the usage map's keys, in the same order |
| Partition.Step | plugin.js:251-257 | definition: one loop turn gives the key the index already stored for its signature, or stores `curIndex` for a new signature, gives it to the key and increments `curIndex` |
| Partition.WalkTo | plugin.js:249-258 | definition: the loop variables after the first n keys, starting from empty maps and `curIndex` 0 |
| Partition.WalkIndexed | plugin.js:249-258 | after any number of keys, the loop's `uniqueChunkNames`, `svgChunks` and `curIndex` number every key seen by the first-seen place of its signature |
| Partition.VisitKey | plugin.js:250-257 | one turn of the loop extends `svgChunks` by the next key and advances the walk by one key |
| Partition.SvgChunkIds | plugin.js:246-262 | `getSVGChunkID` returns `ChunkIds`: every key gets the first-seen index of its signature |
| Partition.SameIndexIffSameSignature | plugin.js:251-258 | two keys get the same index exactly when their signatures are equal |
| Partition.IndicesAreDense | plugin.js:249-257 | the indices used are exactly 0 .. k-1, where k is the number of distinct signatures |
| Partition.NewSignatureTakesNextIndex | plugin.js:254-256 | a key whose signature no earlier key has gets the number of distinct signatures seen before it |
| Partition.SignatureOfStrings | plugin.js:270-274 | a list of the loader's plain strings has a signature of only ampersands, one fewer than its length |
| Partition.StringListsPartitionByLength | plugin.js:246-274 | with the loader's plain-string lists, two icons share an index exactly when their lists have the same length, counting lengths 0 and 1 as equal |
| Partition.SignatureOrderSensitive | plugin.js:270-274 | the signature keeps the list order: `[a, b]` and `[b, a]` give `a&b` and `b&a` |
| Partition.SignatureKeepsDuplicates | plugin.js:270-274 | the signature keeps duplicate names: `[a, a]` gives `a&a`, not `a` |
| Partition.ReorderedListsSplit | plugin.js:246-274 | two icons used by the same chunks listed in different orders get different indices |
| Buckets.IndexText | plugin.js:136-138 | definition: what `replace` writes for an index, its decimal digits, or `"undefined"` when the resource has none |
| Buckets.SetName | plugin.js:136-138 | definition: `processChunkName(template, { index })`, i.e. `Substitute` with the one parameter `index`, an undefined index written "undefined" |
| Buckets.SetNameIsReplace | plugin.js:136-138 | naming a set is one `replace` of the first `[index]` by the index's text |
| Buckets.SetNameKeepsSecondCopy | plugin.js:136-138 | a second `[index]` in the template stays verbatim in the set name |
| Buckets.DistinctIndicesDistinctNames | plugin.js:135-146 | when the template holds `[index]`, different partition indices give different bucket names |
| Buckets.KeyNames | plugin.js:135-141 | one bucket name per key of the index table |
| Buckets.KeyNamesAt | plugin.js:135-141 | the m-th bucket name is the template with `[index]` replaced by the m-th key's index |
| Buckets.ItemName | plugin.js:144-146 | definition: an item's bucket name is `SetName` of its resource's index, undefined when the resource is not in the index table |
| Buckets.ItemNames | plugin.js:143-147 | one bucket name per item, made from its resource's index |
| Buckets.Bucket | plugin.js:143-149 | definition: the bucket of a name after the first n items is those items whose name it is, in input order (its ensures only bounds the length; membership is `BucketOnlyName` and `BucketHas`) |
| Buckets.BucketOnlyName | plugin.js:143-149 | every element of a name's bucket is one of those items whose name it is |
| Buckets.EmptyBuckets | plugin.js:135-141 | the first loop leaves one empty bucket per distinct name, in first-seen order |
| Buckets.PushItems | plugin.js:143-149 | the `forEach` pushes each item, in order, into the bucket of its name, or throws the TypeError when that bucket is missing |
| Buckets.ItemsByTargetSet | plugin.js:130-152 | definition: the TypeError on `items[0]` when there are no items; otherwise the TypeError on `push` when some item's name is not among the key names; otherwise one bucket per distinct key name in first-seen order, holding that name's items in input order |
| Buckets.GetItemsByTargetSet | plugin.js:130-152 | `getItemsByTargetSet` returns `ItemsByTargetSet`: each distinct name's bucket holds its items in input order, or the error it throws |
| Buckets.BucketsValid | plugin.js:130-152 | a successful bucketing lists each bucket name once |
| Buckets.EveryIndexHasBucket | plugin.js:135-141 | every key of the index table names a bucket |
| Buckets.BucketHas | plugin.js:143-149 | every item is in the bucket of its own name |
| Buckets.ItemsInOwnBucket | plugin.js:143-149 | after a successful bucketing, every item sits in the bucket of its own name |
| Buckets.SizeStep | plugin.js:143-149 | one more item adds to the total size of some buckets once for each time its own bucket is among them |
| Buckets.BucketSizesSum | plugin.js:130-152 | the bucket sizes add up to the number of items: no item is lost or counted twice |
| Buckets.NoIndexFails | plugin.js:143-149 | with an empty index table there is no bucket, and the first push throws |
| Buckets.AllIndexedSucceeds | plugin.js:143-149 | when every item's resource has an index, every push finds its bucket |
| Buckets.UndefinedNameDiffers | plugin.js:144-146 | under a template with `[index]`, the name made from an undefined index differs from every index's name |
| Buckets.UnindexedItemThrows | plugin.js:143-149 | under a template with `[index]`, an item whose resource has no index gets a name with no bucket, and `getItemsByTargetSet` throws the `push` TypeError |
| Buckets.TemplateOnlyName | plugin.js:136-146 | a template without `[index]` names every key and every item by the template itself |
| Buckets.SingleSprite | plugin.js:136-146 | a template without `[index]` yields a single bucket, named by the template, holding every item in order |
| OutputConfig.PropertyKey | plugin.js:165 | definition: the key `result[chunk.name]` uses, `"undefined"` when the name reads undefined |
| OutputConfig.SymbolIds | plugin.js:177-179 | definition: the filter by resource then map to `symbol.id`, in item order |
| OutputConfig.SymbolIdsOfEntry | plugin.js:176-180 | the ids listed for an entry are exactly the symbol ids of the items whose resource it is |
| OutputConfig.MarkAll | plugin.js:184-186 | writing the set name under each symbol id keeps the symbol entries a well-formed table |
| OutputConfig.MarkAllValues | plugin.js:184-186 | every listed symbol id now maps to the set name; every other entry keeps its value |
| OutputConfig.MarkSymbols | plugin.js:184-186 | the `forEach` over the symbols computes `MarkAll` |
| OutputConfig.AddChunk | plugin.js:163-189 | one chunk keeps every result object's symbol entries well formed |
| OutputConfig.AddChunkRecords | plugin.js:163-189 | a chunk that does not throw pushes the set name on its result object's `sets` (a fresh `{ sets: [] }` when missing), writes the set name under each symbol id, and leaves other symbol entries and other result objects alone |
| OutputConfig.ChunksAfter | plugin.js:163-189 | the chunks of an entry, in list order, keep the result well formed; the first throw ends the loop |
| OutputConfig.OutputAfter | plugin.js:160-190 | the entries, in key order, keep the result well formed; the first throw ends the loop |
| OutputConfig.VisitChunk | plugin.js:163-189 | one chunk creates `{ sets: [] }` when missing, marks the symbols and pushes the set name, or throws when a symbol id is `sets` |
| OutputConfig.VisitEntryChunk | plugin.js:163-189 | one call of the `forEach` callback: the per-entry symbol cache stays exact and the result is `ChunksAfter` one chunk further |
| OutputConfig.VisitEntry | plugin.js:163-189 | the `chunks.forEach` loop computes `ChunksAfter` for the entry and keeps the per-entry symbol cache exact |
| OutputConfig.VisitEntryAt | plugin.js:160-190 | one turn of the `for…in`: the result is `OutputAfter` one entry further and the cache stays exact |
| OutputConfig.VisitEntries | plugin.js:160-190 | the `for…in` loop over the usage map computes `OutputAfter` over all entries |
| OutputConfig.Config | plugin.js:154-193 | definition: the TypeError on `items[0]` when there are no items, otherwise `OutputAfter` over every key of the usage map |
| OutputConfig.GetOutputConfig | plugin.js:154-193 | `getOutputConfig` returns `Config`, or throws when there is no symbol item |
| OutputConfig.ChunksErrSticks | plugin.js:163-189 | once a chunk throws, later chunks are not reached |
| OutputConfig.OutputErrSticks | plugin.js:160-190 | once an entry throws, later entries are not reached |
| OutputConfig.ChunksKeys | plugin.js:163-174 | the chunks of an entry add exactly their property keys to the result |
| OutputConfig.ChunksErr | plugin.js:184-188 | an entry's chunks throw exactly when there is a chunk and a symbol id `sets` |
| OutputConfig.OutputKeys | plugin.js:160-174 | the result has one object per property key of the entries' chunks |
| OutputConfig.OutputErr | plugin.js:160-190 | the loop throws exactly when some entry has a chunk and a symbol id `sets` |
| OutputConfig.ConfigKeys | plugin.js:154-193 | `getOutputConfig`'s result has a key exactly for each `chunk.name` read from the usage map |
| OutputConfig.LoaderStringsShareOneResult | plugin.js:163-174 | with the loader's plain strings, every chunk reads `name` as undefined, so the only key is `"undefined"` |
| OutputConfig.ConfigErr | plugin.js:154-193 | `getOutputConfig` throws exactly when there is no symbol item, or when an entry with a chunk has a symbol id `sets` |
| Assets.SpriteSymbols | plugin.js:64-66 | definition: `itemsByEntry[filename].map(item => item.symbol)`, the bucket's symbols in bucket order |
| Assets.Content | plugin.js:69-71 | definition: the symbols' renders, in order, joined with the empty separator: the digest input |
| Assets.FinalFilename | plugin.js:68-79 | definition: `ReplaceFirst(filename, "[chunkcode]", digest(Content))` when the name includes `[chunkcode]`, the name itself otherwise |
| Assets.FinalFilenameSpec | plugin.js:68-79 | a name without `[chunkcode]` is kept; otherwise only its first `[chunkcode]` becomes the digest of the symbols' rendered content concatenated in bucket order, so equal content gives an equal name |
| Assets.ConfigAfter | plugin.js:81-83 | `outputConfig` stays a well-formed table as sprites record their symbol ids |
| Assets.SpriteConfig | plugin.js:63-83 | `outputConfig` once every sprite has recorded its symbol ids is a well-formed table |
| Assets.VisitSprite | plugin.js:63-86 | one sprite records its symbol ids under its final name and reports whether its sprite is built |
| Assets.BuildSprites | plugin.js:63-102 | the mapper over all sprites yields `SpriteConfig` and resolves exactly when every sprite is built |
| Assets.Handle | plugin.js:47-116 | the cache changes only when the handler finishes with `processOutput` |
| Assets.AdditionalAssets | plugin.js:47-116 | the handler's outcome and the mapping cache it leaves are those of `Handle` |
| Assets.MappingCache.constructor | plugin.js:10 | the mapping cache starts empty |
| Assets.ConfigKeysAreSymbolIds | plugin.js:81-83 | `outputConfig` has a key for each symbol id of the sprites and no other |
| Assets.LastSpriteWins | plugin.js:81-83 | each symbol id maps to the final name of the last sprite holding it: a later sprite overwrites an earlier one |
| Assets.MergeIsAdditive | plugin.js:104-110 | the merge keeps every key no sprite mentions with its old value and adds the sprites' symbol ids |
| Assets.MergedIdsNameTheirSprite | plugin.js:104-110 | after the merge, every symbol id holds the final name of the last sprite containing it |
| Assets.NoSymbolsNoChange | plugin.js:48-51 | with no symbol items the handler ends at once and the cache is untouched |
| Assets.FailedSpriteNoMerge | plugin.js:104-116 | a sprite that is not built rejects the whole map: `done(e)` and no merge |

## Left out

- Webpack hook registration, the `optimize` hook that captures `symbolsMap` and `svgEntryChunks`, and the emission of chunks and assets (plugin.js:26-45, 87-101) are host plumbing. The model does not produce `compilation.assets` or `compilation.chunks` entries.
- `Sprite.create`, `sprite.render` and `symbol.render` from svg-baker are the parameters `spriteOk` and `render`. The MD5 digest is the parameter `digest`, assumed only to be a function.
- Bluebird's `Promise.map` runs the mappers concurrently. The model runs them in key order. Every mapper records its symbol ids before its sprite promise settles, and the merge needs every sprite built, so the order does not change the merged map. Which rejection reaches `done(e)` is not modelled.
- `processOutput` itself is a foreign callback. The model records only whether it is called (`Finished(true)`).
- `getEntryChunks` (plugin.js:209-238) depends on webpack's module graph and is not part of this model.
- `getOptions` from loader-utils, the plugin lookup with `instanceof` (loader.js:19-21) and `MappedList` are not part of this model. The target compiler's `svgCompiler` stands for the plugin found there.
- Loader.EntryNameOf: `path.basename` is modelled as the last `/`-separated segment less a trailing `.css`. Node's other edge cases are not modelled, including trailing separators and an extension equal to the whole name.
- JsStrings.ReplaceFirst: the `$` patterns that `String.prototype.replace` expands in a replacement string are not modelled. Digests and decimal indices contain no `$`.
- JsObject.Table: keys inherited from `Object.prototype`, such as `constructor`, are not modelled. Neither is the ordering of integer-like keys, which JavaScript lists first in ascending order. The keys here are paths, file names and symbol ids.
- A usage value is either a plain string or an object with a string `name`. Other values, and a usage map that is still undefined when the plugin reads it, are not modelled.
- Errors thrown by `processOutput` are not modelled.
