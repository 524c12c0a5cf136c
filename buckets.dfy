/**
 * `getItemsByTargetSet` (plugin.js): groups the symbol items into buckets,
 * one per sprite file name, the name made from the first item's
 * `spriteFilename` template with `[index]` replaced by the item's partition
 * index.
 */
module Buckets {
  import opened JsObject
  import opened JsStrings
  import opened Seqs
  import opened ChunkNames

  /** An svg-baker symbol, by its id; its markup is reached only through `render`. */
  datatype Symbol = Symbol(id: string)

  /** An entry of the plugin's symbol list: the icon's resource path, its sprite file template, its symbol. */
  datatype SymbolItem = SymbolItem(resource: string, spriteFilename: string, symbol: Symbol)

  type Buckets = Table<seq<SymbolItem>>

  const NoSpriteFilename := "TypeError: Cannot read property 'spriteFilename' of undefined"
  const NoBucket := "TypeError: Cannot read property 'push' of undefined"

  /** The text `replace` writes for a partition index: its digits, or "undefined" when there is none. */
  function IndexText(index: Option<nat>): string {
    match index
    case None => "undefined"
    case Some(n) => NatToString(n)
  }

  /** `processChunkName(template, { index })` */
  function SetName(template: string, index: Option<nat>): string {
    Substitute(template, [("index", IndexText(index))])
  }

  /** `processChunkName` with the single parameter `index` is one `replace` of `[index]`. */
  lemma SetNameIsReplace(template: string, index: Option<nat>)
    ensures SetName(template, index) == ReplaceFirst(template, "[index]", IndexText(index))
  {
    var params := [("index", IndexText(index))];
    assert Token("index") == "[index]";
    assert params[1..] == [];
    assert SetName(template, index) == Substitute(ReplaceFirst(template, "[index]", IndexText(index)), []);
  }

  /** A second `[index]` in the template is left verbatim, shifted by the length difference. */
  lemma SetNameKeepsSecondCopy(template: string, index: Option<nat>, i: nat, j: nat)
    requires FirstOccurrence(template, Token("index"), i) && OccursAt(template, Token("index"), j)
    requires i + |Token("index")| <= j
    ensures OccursAt(SetName(template, index), Token("index"), j - |Token("index")| + |IndexText(index)|)
  {
    OneParamKeepsSecondCopy(template, "index", IndexText(index), i, j);
  }

  /** A template with `[index]` gives different partition indices different names. */
  lemma DistinctIndicesDistinctNames(template: string, a: nat, b: nat)
    requires Includes(template, "[index]") && a != b
    ensures SetName(template, Some(a)) != SetName(template, Some(b))
  {
    var x, y := NatToString(a), NatToString(b);
    if x == y {
      NatToStringInjective(a, b);
    }
    IncludesIff(template, "[index]");
    IndexOfFirst(template, "[index]");
    var i := IndexOfText(template, "[index]").value;
    SetNameIsReplace(template, Some(a));
    SetNameIsReplace(template, Some(b));
    ReplaceAt(template, "[index]", x, i);
    ReplaceAt(template, "[index]", y, i);
    var ra, rb := SetName(template, Some(a)), SetName(template, Some(b));
    if |x| == |y| {
      assert ra[i..i + |x|] == x;
      assert rb[i..i + |y|] == y;
    } else {
      assert |ra| != |rb|;
    }
  }

  /** The bucket names made for the first `n` keys of the index table, in key order. */
  function KeyNames(template: string, ids: Table<nat>, n: nat): (names: seq<string>)
    requires ids.Valid() && n <= |ids.keys|
    ensures |names| == n
  {
    if n == 0 then [] else KeyNames(template, ids, n - 1) + [SetName(template, Some(ids.vals[ids.keys[n - 1]]))]
  }

  /** The bucket name of an item: from the index of its resource, if it has one. */
  function ItemName(template: string, ids: Table<nat>, item: SymbolItem): string {
    SetName(template, ids.Get(item.resource))
  }

  /** The bucket name of each item, in item order. */
  function ItemNames(template: string, ids: Table<nat>, items: seq<SymbolItem>): (ns: seq<string>)
    ensures |ns| == |items|
  {
    seq(|items|, m requires 0 <= m < |items| => ItemName(template, ids, items[m]))
  }

  /** The first `n` items whose bucket name (in `itemNames`) is `name`, in input order. */
  function Bucket(items: seq<SymbolItem>, itemNames: seq<string>, n: nat, name: string): (b: seq<SymbolItem>)
    requires n <= |items| && n <= |itemNames|
    ensures |b| <= n
  {
    if n == 0 then []
    else Bucket(items, itemNames, n - 1, name) + (if itemNames[n - 1] == name then [items[n - 1]] else [])
  }

  /** The bucket of a name holds only items of that name. */
  lemma {:induction false} BucketOnlyName(items: seq<SymbolItem>, itemNames: seq<string>, n: nat, name: string)
    requires n <= |items| && n <= |itemNames|
    ensures forall x :: x in Bucket(items, itemNames, n, name) ==>
      exists m :: 0 <= m < n && itemNames[m] == name && items[m] == x
  {
    if n > 0 {
      BucketOnlyName(items, itemNames, n - 1, name);
    }
  }

  /** Every one of the first `n` item names is among `names`. */
  predicate AllNamed(itemNames: seq<string>, n: nat, names: seq<string>)
    requires n <= |itemNames|
  {
    forall m :: 0 <= m < n ==> itemNames[m] in names
  }

  /** The buckets named `names`, in first-seen order, each holding its items in input order. */
  function Filled(items: seq<SymbolItem>, itemNames: seq<string>, names: seq<string>): Buckets
    requires |items| <= |itemNames|
  {
    Table(FirstSeen(names), map name | name in names :: Bucket(items, itemNames, |items|, name))
  }

  /**
   * What `getItemsByTargetSet` returns: a bucket per distinct name made from
   * the index table's keys, in first-seen order, each holding the items of
   * that name; or the TypeError raised when there is no item to read the
   * template from, or when an item's name has no bucket to push into.
   */
  function ItemsByTargetSet(items: seq<SymbolItem>, ids: Table<nat>): (r: Result<Buckets>)
    requires ids.Valid()
  {
    if items == [] then Err(NoSpriteFilename)
    else
      var template := items[0].spriteFilename;
      var names := KeyNames(template, ids, |ids.keys|);
      var itemNames := ItemNames(template, ids, items);
      if !AllNamed(itemNames, |items|, names) then Err(NoBucket)
      else Ok(Filled(items, itemNames, names))
  }

  /** Putting a name that is new or already seen keeps the keys in first-seen order. */
  lemma PutName<V>(t: Table<V>, names: seq<string>, name: string, v: V)
    requires t.Valid() && t.keys == FirstSeen(names)
    ensures t.Put(name, v).keys == FirstSeen(names + [name])
  {
    FirstSeenSnoc(names, name);
  }

  /** Pushing item `j` into its bucket extends the buckets of the first `j` items to the first `j + 1`. */
  lemma PushStep(items: seq<SymbolItem>, itemNames: seq<string>, j: nat, t: Buckets)
    requires j < |items| && j < |itemNames| && t.Valid() && itemNames[j] in t.vals
    requires forall name :: name in t.vals ==> t.vals[name] == Bucket(items, itemNames, j, name)
    ensures var t' := t.Put(itemNames[j], t.vals[itemNames[j]] + [items[j]]);
      forall k :: k in t'.vals ==> t'.vals[k] == Bucket(items, itemNames, j + 1, k)
  {
  }

  /** An item whose name has a bucket keeps every item so far named. */
  lemma NamedStep(itemNames: seq<string>, j: nat, names: seq<string>)
    requires j < |itemNames| && AllNamed(itemNames, j, names) && itemNames[j] in FirstSeen(names)
    ensures AllNamed(itemNames, j + 1, names)
  {
  }

  /** The table built by the second loop is the one `ItemsByTargetSet` describes. */
  lemma FilledBuckets(items: seq<SymbolItem>, itemNames: seq<string>, names: seq<string>, t: Buckets)
    requires |items| <= |itemNames| && t.Valid() && t.keys == FirstSeen(names)
    requires forall name :: name in t.vals ==> t.vals[name] == Bucket(items, itemNames, |items|, name)
    ensures t == Filled(items, itemNames, names)
  {
  }

  /** The first loop of `getItemsByTargetSet`: an empty bucket for the name of each key of the index table. */
  method EmptyBuckets(template: string, ids: Table<nat>) returns (buckets: Buckets)
    requires ids.Valid()
    ensures buckets.Valid() && buckets.keys == FirstSeen(KeyNames(template, ids, |ids.keys|))
    ensures forall name :: name in buckets.vals ==> buckets.vals[name] == []
  {
    buckets := Empty();
    for n := 0 to |ids.keys|
      invariant buckets.Valid() && buckets.keys == FirstSeen(KeyNames(template, ids, n))
      invariant forall name :: name in buckets.vals ==> buckets.vals[name] == []
    {
      var i := ids.keys[n];
      var entrySetName := ProcessChunkName(template, [("index", IndexText(Some(ids.vals[i])))]);
      PutName(buckets, KeyNames(template, ids, n), entrySetName, []);
      buckets := buckets.Put(entrySetName, []);
    }
  }

  /**
   * The `forEach` loop of `getItemsByTargetSet`: each item pushed, in order,
   * into the bucket named by its index; the TypeError when that bucket is missing.
   */
  method PushItems(template: string, ids: Table<nat>, items: seq<SymbolItem>, ghost names: seq<string>, buckets0: Buckets)
    returns (r: Result<Buckets>)
    requires ids.Valid() && buckets0.Valid() && buckets0.keys == FirstSeen(names)
    requires forall name :: name in buckets0.vals ==> buckets0.vals[name] == []
    ensures var itemNames := ItemNames(template, ids, items);
      r == if !AllNamed(itemNames, |items|, names) then Err(NoBucket)
           else Ok(Filled(items, itemNames, names))
  {
    ghost var itemNames := ItemNames(template, ids, items);
    var buckets := buckets0;
    for j := 0 to |items|
      invariant buckets.Valid() && buckets.keys == FirstSeen(names)
      invariant forall name :: name in buckets.vals ==> buckets.vals[name] == Bucket(items, itemNames, j, name)
      invariant AllNamed(itemNames, j, names)
    {
      var item := items[j];
      var entrySetName := ProcessChunkName(template, [("index", IndexText(ids.Get(item.resource)))]);
      assert entrySetName == itemNames[j];
      if entrySetName !in buckets.vals {
        assert !AllNamed(itemNames, |items|, names) by {
          assert itemNames[j] !in names;
        }
        return Err(NoBucket);
      }
      NamedStep(itemNames, j, names);
      PushStep(items, itemNames, j, buckets);
      buckets := buckets.Put(entrySetName, buckets.vals[entrySetName] + [item]);
    }
    FilledBuckets(items, itemNames, names, buckets);
    return Ok(buckets);
  }

  /**
   * `getItemsByTargetSet`: one empty bucket per key of the index table, then
   * each item pushed, in order, into the bucket named by its index.
   */
  method GetItemsByTargetSet(items: seq<SymbolItem>, chunkTargetSetId: Table<nat>) returns (r: Result<Buckets>)
    requires chunkTargetSetId.Valid()
    ensures r == ItemsByTargetSet(items, chunkTargetSetId)
  {
    if items == [] {
      return Err(NoSpriteFilename);
    }
    var spriteFilename := items[0].spriteFilename;
    var buckets := EmptyBuckets(spriteFilename, chunkTargetSetId);
    r := PushItems(spriteFilename, chunkTargetSetId, items, KeyNames(spriteFilename, chunkTargetSetId, |chunkTargetSetId.keys|), buckets);
  }

  /** The `m`-th key name is the name made from the `m`-th key's index. */
  lemma {:induction false} KeyNamesAt(template: string, ids: Table<nat>, n: nat, m: nat)
    requires ids.Valid() && m < n <= |ids.keys|
    ensures KeyNames(template, ids, n)[m] == SetName(template, Some(ids.vals[ids.keys[m]]))
  {
    var prev := KeyNames(template, ids, n - 1);
    assert KeyNames(template, ids, n) == prev + [SetName(template, Some(ids.vals[ids.keys[n - 1]]))];
    if m < n - 1 {
      KeyNamesAt(template, ids, n - 1, m);
    }
  }

  /** An item is in the bucket of its own name once the buckets have seen it. */
  lemma {:induction false} BucketHas(items: seq<SymbolItem>, itemNames: seq<string>, n: nat, m: nat)
    requires m < n <= |items| && n <= |itemNames|
    ensures items[m] in Bucket(items, itemNames, n, itemNames[m])
  {
    if m < n - 1 {
      BucketHas(items, itemNames, n - 1, m);
    }
  }

  /** Total number of items held by the buckets named `ks`. */
  function Size(items: seq<SymbolItem>, itemNames: seq<string>, n: nat, ks: seq<string>): nat
    requires n <= |items| && n <= |itemNames|
  {
    if ks == [] then 0 else |Bucket(items, itemNames, n, ks[0])| + Size(items, itemNames, n, ks[1..])
  }

  /** Item `n` adds one to the total for each time its name is listed in `ks`. */
  lemma {:induction false} SizeStep(items: seq<SymbolItem>, itemNames: seq<string>, n: nat, ks: seq<string>)
    requires n < |items| && n < |itemNames|
    ensures Size(items, itemNames, n + 1, ks) == Size(items, itemNames, n, ks) + Count(ks, itemNames[n])
  {
    if ks != [] {
      SizeStep(items, itemNames, n, ks[1..]);
    }
  }

  /** When each item so far is named exactly once in `ks`, the buckets named `ks` hold all of them. */
  lemma {:induction false} SizeAll(items: seq<SymbolItem>, itemNames: seq<string>, n: nat, ks: seq<string>)
    requires n <= |items| && n <= |itemNames|
    requires forall m :: 0 <= m < n ==> Count(ks, itemNames[m]) == 1
    ensures Size(items, itemNames, n, ks) == n
  {
    if n == 0 {
      EmptyBuckets0(items, itemNames, ks);
    } else {
      SizeAll(items, itemNames, n - 1, ks);
      SizeStep(items, itemNames, n - 1, ks);
    }
  }

  lemma {:induction false} EmptyBuckets0(items: seq<SymbolItem>, itemNames: seq<string>, ks: seq<string>)
    ensures Size(items, itemNames, 0, ks) == 0
  {
    if ks != [] {
      EmptyBuckets0(items, itemNames, ks[1..]);
    }
  }

  /** A successful bucketing is a well-formed table: each bucket name listed once. */
  lemma BucketsValid(items: seq<SymbolItem>, ids: Table<nat>)
    requires ids.Valid()
    ensures var r := ItemsByTargetSet(items, ids); r.Ok? ==> r.value.Valid()
  {
    if items != [] {
      FirstSeenNoDup(KeyNames(items[0].spriteFilename, ids, |ids.keys|));
    }
  }

  /** Each key of the index table names a bucket; no bucket name is listed twice. */
  lemma EveryIndexHasBucket(items: seq<SymbolItem>, ids: Table<nat>)
    requires ids.Valid()
    ensures var r := ItemsByTargetSet(items, ids);
      r.Ok? ==>
        && r.value.Valid()
        && forall k :: k in ids.vals ==> SetName(items[0].spriteFilename, Some(ids.vals[k])) in r.value.vals
  {
    var r := ItemsByTargetSet(items, ids);
    if r.Ok? {
      var template := items[0].spriteFilename;
      var names := KeyNames(template, ids, |ids.keys|);
      FirstSeenNoDup(names);
      forall k | k in ids.vals
        ensures SetName(template, Some(ids.vals[k])) in r.value.vals
      {
        var p := IndexOf(ids.keys, k);
        KeyNamesAt(template, ids, |ids.keys|, p);
        assert names[p] in names;
      }
    }
  }

  /** Every item sits in the bucket of its own name. */
  lemma ItemsInOwnBucket(items: seq<SymbolItem>, ids: Table<nat>)
    requires ids.Valid()
    ensures var r := ItemsByTargetSet(items, ids);
      r.Ok? ==>
        forall m :: 0 <= m < |items| ==>
          && ItemName(items[0].spriteFilename, ids, items[m]) in r.value.vals
          && items[m] in r.value.vals[ItemName(items[0].spriteFilename, ids, items[m])]
  {
    var r := ItemsByTargetSet(items, ids);
    if r.Ok? {
      var template := items[0].spriteFilename;
      var names := KeyNames(template, ids, |ids.keys|);
      var itemNames := ItemNames(template, ids, items);
      forall m | 0 <= m < |items|
        ensures ItemName(template, ids, items[m]) in r.value.vals && items[m] in r.value.vals[ItemName(template, ids, items[m])]
      {
        assert itemNames[m] in names;
        BucketHas(items, itemNames, |items|, m);
      }
    }
  }

  /** The buckets together hold as many items as there are: none is lost and none is counted twice. */
  lemma BucketSizesSum(items: seq<SymbolItem>, ids: Table<nat>)
    requires ids.Valid()
    ensures var r := ItemsByTargetSet(items, ids);
      r.Ok? ==> Size(items, ItemNames(items[0].spriteFilename, ids, items), |items|, r.value.keys) == |items|
  {
    var r := ItemsByTargetSet(items, ids);
    if r.Ok? {
      var template := items[0].spriteFilename;
      var names := KeyNames(template, ids, |ids.keys|);
      var itemNames := ItemNames(template, ids, items);
      FirstSeenNoDup(names);
      forall m | 0 <= m < |items|
        ensures Count(r.value.keys, itemNames[m]) == 1
      {
        assert itemNames[m] in names;
        NoDupCount(r.value.keys, itemNames[m]);
      }
      SizeAll(items, itemNames, |items|, r.value.keys);
    }
  }

  /** With no key in the index table there is no bucket, and the first item's push fails. */
  lemma NoIndexFails(items: seq<SymbolItem>, ids: Table<nat>)
    requires ids.Valid() && items != [] && ids.keys == []
    ensures ItemsByTargetSet(items, ids) == Err(NoBucket)
  {
    assert KeyNames(items[0].spriteFilename, ids, 0) == [];
    assert ItemNames(items[0].spriteFilename, ids, items)[0] !in [];
  }

  /** With `[index]` in the template, the name made from an undefined index is no index's name. */
  lemma UndefinedNameDiffers(template: string, n: nat)
    requires Includes(template, "[index]")
    ensures SetName(template, None) != SetName(template, Some(n))
  {
    IncludesIff(template, "[index]");
    IndexOfFirst(template, "[index]");
    var i := IndexOfText(template, "[index]").value;
    var x := NatToString(n);
    SetNameIsReplace(template, None);
    SetNameIsReplace(template, Some(n));
    ReplaceAt(template, "[index]", "undefined", i);
    ReplaceAt(template, "[index]", x, i);
    assert SetName(template, None)[i] == 'u';
    assert x[0] in x;
    assert SetName(template, Some(n))[i] == x[0];
  }

  /**
   * An item whose resource has no partition index, under a template with
   * `[index]`, gets a name no bucket has, and its push throws.
   */
  lemma UnindexedItemThrows(items: seq<SymbolItem>, ids: Table<nat>, m: nat)
    requires ids.Valid() && m < |items| && items[m].resource !in ids.vals
    requires Includes(items[0].spriteFilename, "[index]")
    ensures ItemsByTargetSet(items, ids) == Err(NoBucket)
  {
    var template := items[0].spriteFilename;
    var names := KeyNames(template, ids, |ids.keys|);
    var itemNames := ItemNames(template, ids, items);
    assert itemNames[m] == SetName(template, None);
    forall p | 0 <= p < |names|
      ensures names[p] != itemNames[m]
    {
      KeyNamesAt(template, ids, |ids.keys|, p);
      UndefinedNameDiffers(template, ids.vals[ids.keys[p]]);
    }
    assert !AllNamed(itemNames, |items|, names);
  }

  /** When every item's resource has a partition index, every push finds its bucket. */
  lemma AllIndexedSucceeds(items: seq<SymbolItem>, ids: Table<nat>)
    requires ids.Valid() && items != []
    requires forall m :: 0 <= m < |items| ==> items[m].resource in ids.vals
    ensures ItemsByTargetSet(items, ids).Ok?
  {
    var template := items[0].spriteFilename;
    var names := KeyNames(template, ids, |ids.keys|);
    var itemNames := ItemNames(template, ids, items);
    forall m | 0 <= m < |items|
      ensures itemNames[m] in names
    {
      var p := IndexOf(ids.keys, items[m].resource);
      KeyNamesAt(template, ids, |ids.keys|, p);
      assert names[p] in names;
    }
  }

  /** The items, in order, when every one of them is named `name`. */
  lemma {:induction false} BucketOfOneName(items: seq<SymbolItem>, itemNames: seq<string>, n: nat, name: string)
    requires n <= |items| && n <= |itemNames|
    requires forall m :: 0 <= m < n ==> itemNames[m] == name
    ensures Bucket(items, itemNames, n, name) == items[..n]
  {
    if n > 0 {
      BucketOfOneName(items, itemNames, n - 1, name);
      assert items[..n] == items[..n - 1] + [items[n - 1]];
    }
  }

  /** A sequence holding one value throughout has that value as its only distinct one. */
  lemma {:induction false} FirstSeenOfOne(s: seq<string>, x: string)
    requires s != [] && forall i :: 0 <= i < |s| ==> s[i] == x
    ensures FirstSeen(s) == [x]
  {
    if |s| > 1 {
      FirstSeenOfOne(s[..|s| - 1], x);
    }
  }

  /** Buckets where every key and every item have the same name: one bucket holding all items. */
  lemma FilledOfOne(items: seq<SymbolItem>, itemNames: seq<string>, names: seq<string>, name: string)
    requires |items| <= |itemNames| && names != []
    requires forall m :: 0 <= m < |names| ==> names[m] == name
    requires forall m :: 0 <= m < |items| ==> itemNames[m] == name
    ensures Filled(items, itemNames, names) == Table([name], map[name := items])
  {
    FirstSeenOfOne(names, name);
    BucketOfOneName(items, itemNames, |items|, name);
    assert items[..|items|] == items;
    assert names[0] in names;
  }

  /** A template without `[index]` names every key and every item by itself. */
  lemma TemplateOnlyName(template: string, ids: Table<nat>, items: seq<SymbolItem>)
    requires ids.Valid() && !Includes(template, Token("index"))
    ensures forall m :: 0 <= m < |ids.keys| ==> KeyNames(template, ids, |ids.keys|)[m] == template
    ensures forall m :: 0 <= m < |items| ==> ItemNames(template, ids, items)[m] == template
  {
    forall index: Option<nat>
      ensures SetName(template, index) == template
    {
      NoTokenUnchanged(template, [("index", IndexText(index))]);
    }
    forall m | 0 <= m < |ids.keys|
      ensures KeyNames(template, ids, |ids.keys|)[m] == template
    {
      KeyNamesAt(template, ids, |ids.keys|, m);
    }
  }

  /**
   * A `spriteFilename` template without `[index]` makes a single sprite:
   * one bucket, named by the template itself, holding every item in order.
   */
  lemma SingleSprite(items: seq<SymbolItem>, ids: Table<nat>)
    requires ids.Valid() && items != [] && ids.keys != []
    requires !Includes(items[0].spriteFilename, Token("index"))
    ensures ItemsByTargetSet(items, ids) == Ok(Table([items[0].spriteFilename], map[items[0].spriteFilename := items]))
  {
    var template := items[0].spriteFilename;
    var names := KeyNames(template, ids, |ids.keys|);
    var itemNames := ItemNames(template, ids, items);
    TemplateOnlyName(template, ids, items);
    assert AllNamed(itemNames, |items|, names) by {
      forall m | 0 <= m < |items|
        ensures itemNames[m] in names
      {
        assert names[0] == itemNames[m];
      }
    }
    FilledOfOne(items, itemNames, names, template);
  }
}
