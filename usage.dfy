/**
 * The usage map shared by the loader and the plugin: for each icon resource
 * path, the list of values the loader pushed for it, in push order.
 */
module Usage {
  import opened JsObject

  /**
   * A value in a usage list. The loader pushes plain strings (entry names);
   * the partitioning code was written for webpack chunk objects and reads
   * their `name` property.
   */
  datatype UsageValue = Str(text: string) | Chunk(name: string)

  /** `v.name`: a string primitive has no `name` property, so it reads undefined (None). */
  function NameProperty(v: UsageValue): Option<string> {
    match v
    case Str(_) => None
    case Chunk(n) => Some(n)
  }

  type UsageMap = Table<seq<UsageValue>>

  /** Every list holds only what the loader pushes: plain strings. */
  predicate AllStrings(vs: seq<UsageValue>) {
    forall i :: 0 <= i < |vs| ==> vs[i].Str?
  }
}
