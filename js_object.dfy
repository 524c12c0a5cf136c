/**
 * Plain JavaScript objects used as dictionaries. For the non-numeric keys used here
 * (resource paths, file names, symbol ids) `for…in`, `Object.keys` and
 * `Object.assign` visit the own keys in insertion order, so a table is a key
 * sequence in that order plus the map from key to value.
 */
module JsObject {
  import opened Seqs

  datatype Option<+T> = None | Some(value: T)

  /** The outcome of an operation that may throw: its value, or the error it raises. */
  datatype Result<+T> = Ok(value: T) | Err(error: string)

  datatype Table<V> = Table(keys: seq<string>, vals: map<string, V>) {

    /** Keys are listed once each and are exactly the keys of the map. */
    ghost predicate Valid() {
      && NoDup(keys)
      && (forall k :: k in vals <==> k in keys)
    }

    /** `obj[k]`: undefined (None) when k is not an own key. */
    function Get(k: string): Option<V> {
      if k in vals then Some(vals[k]) else None
    }

    /** `obj[k] = v`: an existing key keeps its place, a new key goes last. */
    function Put(k: string, v: V): (t: Table<V>)
      requires Valid()
      ensures t.Valid()
      ensures t.vals == vals[k := v]
      ensures k in keys ==> t.keys == keys
      ensures k !in keys ==> t.keys == keys + [k]
    {
      if k in vals then Table(keys, vals[k := v])
      else NoDupSnoc(keys, k); Table(keys + [k], vals[k := v])
    }
  }

  /** `{}` */
  function Empty<V>(): (t: Table<V>)
    ensures t.Valid() && t.keys == [] && t.vals == map[]
  {
    Table([], map[])
  }

  /**
   * `target[k] = source[k]` for each k of `ks` in order: the loop inside
   * `Object.assign`. Keys of the target keep their places; every value the
   * loop writes wins over the target's.
   */
  function AssignKeys<V>(target: Table<V>, source: map<string, V>, ks: seq<string>): (r: Table<V>)
    requires target.Valid()
    requires forall k :: k in ks ==> k in source
    ensures r.Valid()
    ensures forall k :: k in r.vals <==> k in target.vals || k in ks
    ensures forall k :: k in ks ==> k in r.vals && r.vals[k] == source[k]
    ensures forall k :: k in target.vals && k !in ks ==> k in r.vals && r.vals[k] == target.vals[k]
    ensures target.keys <= r.keys
    decreases ks
  {
    if ks == [] then target
    else AssignKeys(target.Put(ks[0], source[ks[0]]), source, ks[1..])
  }

  /**
   * `Object.assign(target, source)`: the result is the target with every own
   * key of the source copied over, in the source's key order.
   */
  function Assign<V>(target: Table<V>, source: Table<V>): (r: Table<V>)
    requires target.Valid() && source.Valid()
    ensures r.Valid()
    ensures forall k :: k in r.vals <==> k in target.vals || k in source.vals
    ensures forall k :: k in r.vals ==> r.vals[k] == if k in source.vals then source.vals[k] else target.vals[k]
    ensures target.keys <= r.keys
  {
    AssignKeys(target, source.vals, source.keys)
  }
}
