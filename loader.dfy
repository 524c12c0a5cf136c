/**
 * The icon loader (loader.js): run once per loaded icon module, it records in
 * the sprite plugin's usage map which entry used the icon, and returns the
 * module's content unchanged.
 */
module Loader {
  import opened JsObject
  import opened JsStrings
  import opened Usage

  /** The entry name used when `optimize` is off. */
  const SingleEntry: string := "single-entry"

  /** A webpack module as the loader sees it: its resource path and the module that issued it. */
  datatype Module = Module(resource: string, issuer: Option<Module>)

  /** The `svgCompiler` of the sprite plugin: `usageMap` is undefined until the first report. */
  class SvgCompiler {
    var usageMap: Option<UsageMap>

    ghost predicate Valid()
      reads this
    {
      usageMap.Some? ==> usageMap.value.Valid()
    }

    constructor ()
      ensures Valid() && usageMap == None
    {
      usageMap := None;
    }
  }

  /**
   * A webpack compiler: `parent` is `parentCompilation.compiler` (None for a
   * compiler that is not a child), `svgCompiler` belongs to the sprite plugin
   * registered in this compiler's options.
   */
  datatype Compiler = Compiler(parent: Option<Compiler>, svgCompiler: SvgCompiler) {
    predicate IsChild() { parent.Some? }
  }

  /** The compiler whose registry receives the report: one level up for a child, never further. */
  function TargetCompiler(c: Compiler): (t: Compiler)
    ensures c.IsChild() ==> t == c.parent.value
    ensures !c.IsChild() ==> t == c
  {
    match c.parent
    case Some(p) => p
    case None => c
  }

  /** The top of the compiler hierarchy. */
  function RootCompiler(c: Compiler): (r: Compiler)
    ensures !r.IsChild()
  {
    match c.parent
    case Some(p) => RootCompiler(p)
    case None => c
  }

  /**
   * A compiler two levels down reports to its parent, which is itself a child:
   * the registry it writes is not the root compiler's unless the two compilers
   * share a plugin instance.
   */
  lemma GrandchildTargetIsNotRoot(c: Compiler)
    requires c.IsChild() && c.parent.value.IsChild()
    ensures TargetCompiler(c) == c.parent.value
    ensures TargetCompiler(c).IsChild()
    ensures TargetCompiler(c) != RootCompiler(c)
  {
  }

  /** The module reached by following `issuer` until a module has none. */
  function IssuerRoot(m: Module): (r: Module)
    ensures r.issuer.None?
    ensures m.issuer.None? ==> r == m
  {
    match m.issuer
    case None => m
    case Some(i) => IssuerRoot(i)
  }

  /** The entry name a report is filed under. */
  function EntryNameOf(optimize: bool, m: Module): (name: string)
    ensures !optimize ==> name == SingleEntry
    ensures optimize ==> '/' !in name
  {
    if optimize then Basename(IssuerRoot(m).resource, ".css") else SingleEntry
  }

  /** Derives the entry name, walking the issuer chain in `optimize` mode. */
  method EntryName(optimize: bool, loaded: Module) returns (name: string)
    ensures optimize ==> name == Basename(IssuerRoot(loaded).resource, ".css")
    ensures !optimize ==> name == SingleEntry
  {
    if optimize {
      var m := loaded;
      while m.issuer.Some?
        invariant IssuerRoot(m) == IssuerRoot(loaded)
        decreases m
      {
        m := m.issuer.value;
      }
      name := Basename(m.resource, ".css");
    } else {
      name := SingleEntry;
    }
  }

  /** The usage map the registry holds, `{}` when it is still undefined. */
  function Lazy(usage: Option<UsageMap>): (t: UsageMap)
    ensures usage.None? ==> t.keys == [] && t.vals == map[]
  {
    match usage
    case None => Empty()
    case Some(t) => t
  }

  /** The usage map after the loader reports `entryName` for `path`. */
  function Report(usage: Option<UsageMap>, path: string, entryName: string, optimize: bool): (r: UsageMap)
    requires usage.Some? ==> usage.value.Valid()
    ensures r.Valid()
    ensures path in r.vals
    ensures forall p :: p != path ==> r.Get(p) == Lazy(usage).Get(p)
    ensures Lazy(usage).keys <= r.keys
  {
    var m := Lazy(usage);
    if path !in m.vals then m.Put(path, [Str(entryName)])
    else if optimize then m.Put(path, m.vals[path] + [Str(entryName)])
    else m
  }

  /** The first report for a path files it under the singleton list, as the last key. */
  lemma FirstReport(usage: Option<UsageMap>, path: string, entryName: string, optimize: bool)
    requires usage.Some? ==> usage.value.Valid()
    requires path !in Lazy(usage).vals
    ensures Report(usage, path, entryName, optimize).vals[path] == [Str(entryName)]
    ensures Report(usage, path, entryName, optimize).keys == Lazy(usage).keys + [path]
  {
  }

  /** Without `optimize`, a later report for a known path changes nothing. */
  lemma RepeatReportIsNoOp(usage: UsageMap, path: string, entryName: string)
    requires usage.Valid() && path in usage.vals
    ensures Report(Some(usage), path, entryName, false) == usage
  {
  }

  /**
   * In `optimize` mode a later report appends, even a name already present:
   * the list grows by exactly one and its earlier elements stay.
   */
  lemma RepeatReportAppends(usage: UsageMap, path: string, entryName: string)
    requires usage.Valid() && path in usage.vals
    ensures var r := Report(Some(usage), path, entryName, true);
      && r.keys == usage.keys
      && |r.vals[path]| == |usage.vals[path]| + 1
      && r.vals[path][..|usage.vals[path]|] == usage.vals[path]
      && r.vals[path][|usage.vals[path]|] == Str(entryName)
  {
  }

  /** In `optimize` mode the list records the order of the reports, not a set. */
  lemma ReportOrderMatters(path: string)
    ensures Report(Some(Report(None, path, "a", true)), path, "b", true)
         != Report(Some(Report(None, path, "b", true)), path, "a", true)
  {
    var a := Report(None, path, "a", true);
    var b := Report(None, path, "b", true);
    assert a.vals[path] == [Str("a")];
    assert b.vals[path] == [Str("b")];
    var ab := Report(Some(a), path, "b", true);
    var ba := Report(Some(b), path, "a", true);
    assert ab.vals[path][0] == Str("a");
    assert ba.vals[path][0] == Str("b");
    assert "a" != "b" by { assert "a"[0] != "b"[0]; }
  }

  /**
   * The exported loader function: picks the target compiler, derives the
   * entry name, creates the usage map when it is missing, records the report
   * and hands back `content` untouched.
   */
  method Load(compiler: Compiler, optimize: bool, loaded: Module, resourcePath: string, content: string)
    returns (r: string)
    requires TargetCompiler(compiler).svgCompiler.Valid()
    modifies TargetCompiler(compiler).svgCompiler
    ensures r == content
    ensures TargetCompiler(compiler).svgCompiler.Valid()
    ensures TargetCompiler(compiler).svgCompiler.usageMap
         == Some(Report(old(TargetCompiler(compiler).svgCompiler.usageMap), resourcePath,
                        EntryNameOf(optimize, loaded), optimize))
  {
    var targetCompiler := TargetCompiler(compiler);
    var registry := targetCompiler.svgCompiler;
    var iconUsageMap := registry.usageMap;
    var entryName := EntryName(optimize, loaded);
    if iconUsageMap.None? {
      registry.usageMap := Some(Empty());
      iconUsageMap := registry.usageMap;
    }
    var table := iconUsageMap.value;
    if resourcePath !in table.vals {
      registry.usageMap := Some(table.Put(resourcePath, [Str(entryName)]));
    } else if optimize {
      registry.usageMap := Some(table.Put(resourcePath, table.vals[resourcePath] + [Str(entryName)]));
    }
    r := content;
  }
}
