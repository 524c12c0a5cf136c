/**
 * Partitioning (plugin.js): `getUniqueCommonChunksName` turns an icon's usage
 * list into a signature, and `getSVGChunkID` numbers the distinct signatures
 * in the order the usage map's keys first show them.
 */
module Partition {
  import opened JsObject
  import opened JsStrings
  import opened Seqs
  import opened Usage

  /** What a list value contributes to `join`: its `name`, or "" when that is undefined. */
  function JoinText(v: UsageValue): string {
    match NameProperty(v)
    case None => ""
    case Some(n) => n
  }

  /** `Array.from(chunks).map(chunk => chunk.name)`, each undefined name as `join` writes it. */
  function JoinTexts(vs: seq<UsageValue>): (ts: seq<string>)
    ensures |ts| == |vs|
    ensures forall i :: 0 <= i < |vs| ==> ts[i] == JoinText(vs[i])
  {
    if vs == [] then [] else JoinTexts(vs[..|vs| - 1]) + [JoinText(vs[|vs| - 1])]
  }

  /** `getUniqueCommonChunksName`: the values' names, '&'-joined in list order, duplicates kept. */
  function Signature(vs: seq<UsageValue>): string {
    Join(JoinTexts(vs), "&")
  }

  function SignaturesOf(vals: map<string, seq<UsageValue>>, keys: seq<string>): (sigs: seq<string>)
    requires forall k :: k in keys ==> k in vals
    ensures |sigs| == |keys|
    ensures forall j :: 0 <= j < |keys| ==> sigs[j] == Signature(vals[keys[j]])
  {
    if keys == [] then [] else SignaturesOf(vals, keys[..|keys| - 1]) + [Signature(vals[keys[|keys| - 1]])]
  }

  /** The signature of each key of the usage map, in key order. */
  function Signatures(usage: UsageMap): (sigs: seq<string>)
    requires usage.Valid()
    ensures |sigs| == |usage.keys|
    ensures forall j :: 0 <= j < |usage.keys| ==> sigs[j] == Signature(usage.vals[usage.keys[j]])
  {
    SignaturesOf(usage.vals, usage.keys)
  }

  /**
   * The index `getSVGChunkID` gives to `path`: the position of its signature
   * among the distinct signatures, taken in first-seen order.
   */
  function PartitionIndex(usage: UsageMap, path: string): (i: nat)
    requires usage.Valid() && path in usage.vals
    ensures i < |FirstSeen(Signatures(usage))|
    ensures FirstSeen(Signatures(usage))[i] == Signature(usage.vals[path])
  {
    var j := IndexOf(usage.keys, path);
    assert Signatures(usage)[j] == Signature(usage.vals[path]);
    IndexOf(FirstSeen(Signatures(usage)), Signature(usage.vals[path]))
  }

  /** The object `getSVGChunkID` returns: every key of the usage map, in order, with its index. */
  function ChunkIds(usage: UsageMap): (ids: Table<nat>)
    requires usage.Valid()
    ensures ids.Valid() && ids.keys == usage.keys && ids.vals.Keys == usage.vals.Keys
  {
    Table(usage.keys, map k | k in usage.vals :: PartitionIndex(usage, k))
  }

  /**
   * The first `n` keys are numbered by the position in `seen` of their
   * signature `sigs[m]`.
   */
  ghost predicate Numbered<K, S>(keys: seq<K>, vals: map<K, nat>, sigs: seq<S>, seen: seq<S>, n: nat)
    requires n <= |keys| && n <= |sigs|
  {
    forall m :: 0 <= m < n ==> keys[m] in vals && vals[keys[m]] < |seen| && seen[vals[keys[m]]] == sigs[m]
  }

  /** Numbering key `n` by a position of its signature keeps the earlier numbers. */
  lemma NumberedStep<K, S>(keys: seq<K>, vals: map<K, nat>, sigs: seq<S>, seen: seq<S>, n: nat, idx: nat)
    requires n < |keys| && n < |sigs| && keys[n] !in keys[..n]
    requires Numbered(keys, vals, sigs, seen, n)
    requires idx < |seen| && seen[idx] == sigs[n]
    ensures Numbered(keys, vals[keys[n] := idx], sigs, seen, n + 1)
  {
    var vals' := vals[keys[n] := idx];
    forall m | 0 <= m < n + 1
      ensures keys[m] in vals' && vals'[keys[m]] < |seen| && seen[vals'[keys[m]]] == sigs[m]
    {
      if m < n {
        assert keys[m] in keys[..n];
      }
    }
  }

  /** A key numbered by the first-seen order of the signatures holds its `PartitionIndex`. */
  lemma NumberedKey(usage: UsageMap, vals: map<string, nat>, k: string)
    requires usage.Valid() && k in usage.vals
    requires Numbered(usage.keys, vals, Signatures(usage), FirstSeen(Signatures(usage)), |usage.keys|)
    ensures k in vals && vals[k] == PartitionIndex(usage, k)
  {
    var seen := FirstSeen(Signatures(usage));
    var m := IndexOf(usage.keys, k);
    var a, b := vals[k], PartitionIndex(usage, k);
    assert seen[a] == Signatures(usage)[m] == seen[b];
    FirstSeenNoDup(Signatures(usage));
    NoDupSameIndex(seen, a, b);
  }

  /** Every key numbered by the first-seen order of the signatures holds its `PartitionIndex`. */
  lemma NumberedKeys(usage: UsageMap, vals: map<string, nat>)
    requires usage.Valid()
    requires Numbered(usage.keys, vals, Signatures(usage), FirstSeen(Signatures(usage)), |usage.keys|)
    ensures forall k :: k in usage.vals ==> k in vals && vals[k] == PartitionIndex(usage, k)
  {
    forall k | k in usage.vals
      ensures k in vals && vals[k] == PartitionIndex(usage, k)
    {
      NumberedKey(usage, vals, k);
    }
  }

  /** A table whose every key is numbered by the first-seen order of the signatures is `ChunkIds`. */
  lemma NumberedIsChunkIds(usage: UsageMap, svgChunks: Table<nat>)
    requires usage.Valid() && svgChunks.Valid() && svgChunks.keys == usage.keys
    requires Numbered(usage.keys, svgChunks.vals, Signatures(usage), FirstSeen(Signatures(usage)), |usage.keys|)
    ensures svgChunks == ChunkIds(usage)
  {
    NumberedKeys(usage, svgChunks.vals);
  }

  /**
   * `getSVGChunkID`'s `uniqueChunkNames` and `curIndex` after the first `n`
   * keys: `names` maps each signature seen so far to its place in the
   * first-seen order of all signatures, and `next` is the number of
   * signatures seen so far.
   */
  ghost predicate NamesIndexed<S>(sigs: seq<S>, n: nat, names: map<S, nat>, next: nat)
    requires n <= |sigs|
  {
    && next == |FirstSeen(sigs[..n])| <= |FirstSeen(sigs)|
    && (forall x :: x in names ==> x in sigs[..n])
    && (forall x :: x in sigs[..n] ==> x in names)
    && (forall x :: x in names ==> names[x] < next && FirstSeen(sigs)[names[x]] == x)
  }

  /** The whole state of `getSVGChunkID` after its first `n` keys. */
  ghost predicate Indexed<K, S>(keys: seq<K>, sigs: seq<S>, n: nat, names: map<S, nat>, vals: map<K, nat>, next: nat)
    requires n <= |keys| && n <= |sigs|
  {
    NamesIndexed(sigs, n, names, next) && Numbered(keys, vals, sigs, FirstSeen(sigs), n)
  }

  lemma IndexedInit<K, S>(keys: seq<K>, sigs: seq<S>)
    ensures Indexed(keys, sigs, 0, map[], map[], 0)
  {
    FirstSeenPrefix(sigs, 0);
  }

  /** A signature seen before keeps the names as they are. */
  lemma NamesFound<S>(sigs: seq<S>, n: nat, names: map<S, nat>, next: nat)
    requires n < |sigs| && NamesIndexed(sigs, n, names, next) && sigs[n] in names
    ensures NamesIndexed(sigs, n + 1, names, next)
  {
    TakeSnoc(sigs, n);
    FirstSeenSnoc(sigs[..n], sigs[n]);
  }

  /** A value not seen before takes the next place in the first-seen order of the whole sequence. */
  lemma FirstSeenNext<S>(sigs: seq<S>, n: nat)
    requires n < |sigs| && sigs[n] !in sigs[..n]
    ensures |FirstSeen(sigs[..n + 1])| == |FirstSeen(sigs[..n])| + 1 <= |FirstSeen(sigs)|
    ensures FirstSeen(sigs)[|FirstSeen(sigs[..n])|] == sigs[n]
  {
    var x := sigs[n];
    TakeSnoc(sigs, n);
    FirstSeenSnoc(sigs[..n], x);
    FirstSeenPrefix(sigs, n + 1);
    var p := FirstSeen(sigs[..n]);
    assert FirstSeen(sigs[..n + 1]) == p + [x];
    assert FirstSeen(sigs)[|p|] == FirstSeen(sigs[..n + 1])[|p|];
  }

  /** A signature not seen before is next in first-seen order, so it takes `next`. */
  lemma NamesNew<S>(sigs: seq<S>, n: nat, names: map<S, nat>, next: nat)
    requires n < |sigs| && NamesIndexed(sigs, n, names, next) && sigs[n] !in names
    ensures next < |FirstSeen(sigs)| && FirstSeen(sigs)[next] == sigs[n]
    ensures NamesIndexed(sigs, n + 1, names[sigs[n] := next], next + 1)
  {
    FirstSeenNext(sigs, n);
    TakeSnoc(sigs, n);
  }

  /** `getSVGChunkID`'s loop variables: `uniqueChunkNames`, `svgChunks` (its map) and `curIndex`. */
  datatype Walk = Walk(names: map<string, nat>, ids: map<string, nat>, next: nat)

  /** One turn of the loop, for the key `key` whose signature is `sig`. */
  function Step(w: Walk, key: string, sig: string): Walk {
    if sig in w.names then Walk(w.names, w.ids[key := w.names[sig]], w.next)
    else Walk(w.names[sig := w.next], w.ids[key := w.next], w.next + 1)
  }

  /** The loop variables after the first `n` keys of the usage map. */
  ghost function WalkTo(usage: UsageMap, n: nat): Walk
    requires usage.Valid() && n <= |usage.keys|
  {
    if n == 0 then Walk(map[], map[], 0)
    else
      var key := usage.keys[n - 1];
      Step(WalkTo(usage, n - 1), key, Signature(usage.vals[key]))
  }

  /** One turn of the loop keeps the loop variables indexed. */
  lemma IndexedStep(keys: seq<string>, sigs: seq<string>, n: nat, w: Walk)
    requires n < |keys| && n < |sigs| && keys[n] !in keys[..n]
    requires Indexed(keys, sigs, n, w.names, w.ids, w.next)
    ensures var w' := Step(w, keys[n], sigs[n]); Indexed(keys, sigs, n + 1, w'.names, w'.ids, w'.next)
  {
    if sigs[n] in w.names {
      NamesFound(sigs, n, w.names, w.next);
      NumberedStep(keys, w.ids, sigs, FirstSeen(sigs), n, w.names[sigs[n]]);
    } else {
      NamesNew(sigs, n, w.names, w.next);
      NumberedStep(keys, w.ids, sigs, FirstSeen(sigs), n, w.next);
    }
  }

  /**
   * After any number of keys the loop variables number every key by the
   * place of its signature in the first-seen order of all signatures.
   */
  lemma {:induction false} WalkIndexed(usage: UsageMap, n: nat)
    requires usage.Valid() && n <= |usage.keys|
    ensures var w := WalkTo(usage, n); Indexed(usage.keys, Signatures(usage), n, w.names, w.ids, w.next)
  {
    var keys, sigs := usage.keys, Signatures(usage);
    if n == 0 {
      IndexedInit(keys, sigs);
    } else {
      var w := WalkTo(usage, n - 1);
      assert WalkTo(usage, n) == Step(w, keys[n - 1], sigs[n - 1]);
      WalkIndexed(usage, n - 1);
      assert keys[n - 1] !in keys[..n - 1];
      IndexedStep(keys, sigs, n - 1, w);
    }
  }

  /** A table holding the numbers of the whole walk over the usage map's keys is `ChunkIds`. */
  lemma WalkIsChunkIds(usage: UsageMap, svgChunks: Table<nat>)
    requires usage.Valid() && svgChunks.Valid() && svgChunks.keys == usage.keys[..|usage.keys|]
    requires svgChunks.vals == WalkTo(usage, |usage.keys|).ids
    ensures svgChunks == ChunkIds(usage)
  {
    assert usage.keys[..|usage.keys|] == usage.keys;
    WalkIndexed(usage, |usage.keys|);
    NumberedIsChunkIds(usage, svgChunks);
  }

  /**
   * One turn of `getSVGChunkID`'s loop, for the `n`-th key of the usage map:
   * numbers the key and updates `uniqueChunkNames` and `curIndex`.
   */
  method VisitKey(usage: UsageMap, n: nat, svgChunks: Table<nat>, uniqueChunkNames: map<string, nat>, curIndex: nat)
    returns (svgChunks': Table<nat>, uniqueChunkNames': map<string, nat>, curIndex': nat)
    requires usage.Valid() && n < |usage.keys|
    requires svgChunks.Valid() && svgChunks.keys == usage.keys[..n]
    requires WalkTo(usage, n) == Walk(uniqueChunkNames, svgChunks.vals, curIndex)
    ensures svgChunks'.Valid() && svgChunks'.keys == usage.keys[..n + 1]
    ensures WalkTo(usage, n + 1) == Walk(uniqueChunkNames', svgChunks'.vals, curIndex')
  {
    var i := usage.keys[n];
    var tempName := Signature(usage.vals[i]);
    var idx;
    uniqueChunkNames', curIndex' := uniqueChunkNames, curIndex;
    if tempName in uniqueChunkNames {
      idx := uniqueChunkNames[tempName];
    } else {
      idx := curIndex;
      uniqueChunkNames' := uniqueChunkNames[tempName := curIndex];
      curIndex' := curIndex + 1;
    }
    assert i !in usage.keys[..n];
    svgChunks' := svgChunks.Put(i, idx);
    TakeSnoc(usage.keys, n);
  }

  /**
   * `getSVGChunkID`: walks the usage map's keys in order, giving each the
   * number already held by its signature or, for a signature not seen
   * before, the next free number.
   */
  method SvgChunkIds(usage: UsageMap) returns (svgChunks: Table<nat>)
    requires usage.Valid()
    ensures svgChunks == ChunkIds(usage)
  {
    svgChunks := Empty();
    var uniqueChunkNames: map<string, nat> := map[];
    var curIndex := 0;
    for n := 0 to |usage.keys|
      invariant svgChunks.Valid() && svgChunks.keys == usage.keys[..n]
      invariant WalkTo(usage, n) == Walk(uniqueChunkNames, svgChunks.vals, curIndex)
    {
      svgChunks, uniqueChunkNames, curIndex := VisitKey(usage, n, svgChunks, uniqueChunkNames, curIndex);
    }
    WalkIsChunkIds(usage, svgChunks);
  }

  /** Two keys share an index exactly when their usage lists have the same signature. */
  lemma SameIndexIffSameSignature(usage: UsageMap, a: string, b: string)
    requires usage.Valid() && a in usage.vals && b in usage.vals
    ensures ChunkIds(usage).vals[a] == ChunkIds(usage).vals[b] <==> Signature(usage.vals[a]) == Signature(usage.vals[b])
  {
  }

  /**
   * The indices in use are exactly 0 .. k-1, where k is the number of
   * distinct signatures.
   */
  lemma IndicesAreDense(usage: UsageMap)
    requires usage.Valid()
    ensures forall k :: k in usage.vals ==> ChunkIds(usage).vals[k] < |FirstSeen(Signatures(usage))|
    ensures forall j :: 0 <= j < |FirstSeen(Signatures(usage))| ==> j in ChunkIds(usage).vals.Values
  {
    var sigs := Signatures(usage);
    var seen := FirstSeen(sigs);
    FirstSeenNoDup(sigs);
    forall j | 0 <= j < |seen|
      ensures j in ChunkIds(usage).vals.Values
    {
      var m := IndexOf(sigs, seen[j]);
      var k := usage.keys[m];
      NoDupSameIndex(seen, PartitionIndex(usage, k), j);
      assert ChunkIds(usage).vals[k] == j;
    }
  }

  /**
   * Numbering is in first-seen order: a key whose signature no earlier key
   * has gets the number of distinct signatures seen before it.
   */
  lemma NewSignatureTakesNextIndex(usage: UsageMap, m: nat)
    requires usage.Valid() && m < |usage.keys|
    requires Signatures(usage)[m] !in Signatures(usage)[..m]
    ensures ChunkIds(usage).vals[usage.keys[m]] == |FirstSeen(Signatures(usage)[..m])|
  {
    var sigs := Signatures(usage);
    var seen := FirstSeen(sigs);
    FirstSeenNext(sigs, m);
    FirstSeenNoDup(sigs);
    NoDupSameIndex(seen, PartitionIndex(usage, usage.keys[m]), |FirstSeen(sigs[..m])|);
  }

  /** `n` ampersands. */
  function Ampersands(n: nat): (r: string)
    ensures |r| == n
  {
    if n == 0 then "" else Ampersands(n - 1) + "&"
  }

  lemma {:induction false} JoinOfEmpties(ts: seq<string>)
    requires forall i :: 0 <= i < |ts| ==> ts[i] == ""
    ensures Join(ts, "&") == Ampersands(if |ts| == 0 then 0 else |ts| - 1)
  {
    if |ts| > 1 {
      JoinOfEmpties(ts[..|ts| - 1]);
    }
  }

  /**
   * The loader pushes plain strings, whose `name` is undefined: the
   * signature of such a list is one ampersand fewer than its length.
   */
  lemma SignatureOfStrings(vs: seq<UsageValue>)
    requires AllStrings(vs)
    ensures Signature(vs) == Ampersands(if |vs| == 0 then 0 else |vs| - 1)
  {
    JoinOfEmpties(JoinTexts(vs));
  }

  /**
   * With the loader's plain-string lists, two icons share a sprite exactly
   * when their lists have the same length, except that lengths 0 and 1 agree.
   */
  lemma StringListsPartitionByLength(usage: UsageMap, a: string, b: string)
    requires usage.Valid() && a in usage.vals && b in usage.vals
    requires AllStrings(usage.vals[a]) && AllStrings(usage.vals[b])
    ensures ChunkIds(usage).vals[a] == ChunkIds(usage).vals[b] <==>
      (if |usage.vals[a]| == 0 then 0 else |usage.vals[a]| - 1) == (if |usage.vals[b]| == 0 then 0 else |usage.vals[b]| - 1)
  {
    SignatureOfStrings(usage.vals[a]);
    SignatureOfStrings(usage.vals[b]);
  }

  /** The signature keeps the list order, so reordering a list changes it. */
  lemma SignatureOrderSensitive()
    ensures Signature([Chunk("a"), Chunk("b")]) == "a&b"
    ensures Signature([Chunk("b"), Chunk("a")]) == "b&a"
  {
    assert JoinTexts([Chunk("a"), Chunk("b")]) == ["a", "b"];
    assert JoinTexts([Chunk("b"), Chunk("a")]) == ["b", "a"];
  }

  /** The signature keeps duplicate names. */
  lemma SignatureKeepsDuplicates()
    ensures Signature([Chunk("a"), Chunk("a")]) == "a&a"
    ensures Signature([Chunk("a")]) == "a"
  {
    assert JoinTexts([Chunk("a"), Chunk("a")]) == ["a", "a"];
    assert JoinTexts([Chunk("a")]) == ["a"];
  }

  /** Two icons used by the same chunks, listed in different orders, land in different sprites. */
  lemma ReorderedListsSplit()
    ensures var usage := Table(["x", "y"], map["x" := [Chunk("a"), Chunk("b")], "y" := [Chunk("b"), Chunk("a")]]);
      usage.Valid() && ChunkIds(usage).vals["x"] != ChunkIds(usage).vals["y"]
  {
    var usage := Table(["x", "y"], map["x" := [Chunk("a"), Chunk("b")], "y" := [Chunk("b"), Chunk("a")]]);
    assert ["x", "y"][..1] == ["x"];
    SignatureOrderSensitive();
    SameIndexIffSameSignature(usage, "x", "y");
  }
}
