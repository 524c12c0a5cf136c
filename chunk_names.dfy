/**
 * `processChunkName` (plugin.js): fills `[key]` placeholders of a file-name
 * template from a parameter object, one `String.prototype.replace` per key.
 */
module ChunkNames {
  import opened JsObject
  import opened JsStrings

  /** The placeholder written for parameter `k`. */
  function Token(k: string): string {
    "[" + k + "]"
  }

  /** A placeholder: `[`, a name holding no bracket, `]`. */
  predicate Placeholder(t: string) {
    && |t| >= 2 && t[0] == '[' && t[|t| - 1] == ']'
    && forall i :: 0 < i < |t| - 1 ==> t[i] != '[' && t[i] != ']'
  }

  /**
   * The template after each parameter, in key order, has replaced the first
   * occurrence of its placeholder. Parameter values are already the strings
   * `replace` converts them to.
   */
  function Substitute(template: string, params: seq<(string, string)>): string
    decreases |params|
  {
    if params == [] then template
    else Substitute(ReplaceFirst(template, Token(params[0].0), params[0].1), params[1..])
  }

  method ProcessChunkName(chunkName: string, params: seq<(string, string)>) returns (r: string)
    ensures r == Substitute(chunkName, params)
  {
    var name := chunkName;
    var i := 0;
    while i < |params|
      invariant 0 <= i <= |params|
      invariant Substitute(name, params[i..]) == Substitute(chunkName, params)
    {
      assert params[i..][1..] == params[i + 1..];
      name := ReplaceFirst(name, Token(params[i].0), params[i].1);
      i := i + 1;
    }
    r := name;
  }

  /** A template holding none of the parameters' placeholders comes back unchanged. */
  lemma {:induction false} NoTokenUnchanged(template: string, params: seq<(string, string)>)
    requires forall p :: p in params ==> !Includes(template, Token(p.0))
    ensures Substitute(template, params) == template
    decreases |params|
  {
    if params != [] {
      assert ReplaceFirst(template, Token(params[0].0), params[0].1) == template;
      assert forall p :: p in params[1..] ==> p in params;
      NoTokenUnchanged(template, params[1..]);
    }
  }

  /** A second copy of a substituted placeholder is left in place. */
  lemma SecondCopyKept(s: string, pat: string, rep: string, i: nat, j: nat)
    requires FirstOccurrence(s, pat, i) && OccursAt(s, pat, j) && i + |pat| <= j
    ensures OccursAt(ReplaceFirst(s, pat, rep), pat, j - |pat| + |rep|)
  {
    ReplaceAt(s, pat, rep, i);
    var r := ReplaceFirst(s, pat, rep);
    var j' := j - |pat| + |rep|;
    assert r[j'..j' + |pat|] == s[i + |pat|..][j - i - |pat|..j - i] == s[j..j + |pat|];
  }

  /**
   * With a single parameter, a second copy of its placeholder is left in
   * place, shifted by the length difference.
   */
  lemma OneParamKeepsSecondCopy(s: string, k: string, v: string, i: nat, j: nat)
    requires FirstOccurrence(s, Token(k), i) && OccursAt(s, Token(k), j) && i + |Token(k)| <= j
    ensures OccursAt(Substitute(s, [(k, v)]), Token(k), j - |Token(k)| + |v|)
  {
    var r := ReplaceFirst(s, Token(k), v);
    assert [(k, v)][1..] == [];
    assert Substitute(s, [(k, v)]) == Substitute(r, []) == r;
    SecondCopyKept(s, Token(k), v, i, j);
  }

  /** Two different placeholders cannot overlap where one of them occurs. */
  lemma PlaceholdersDoNotOverlap(s: string, pat: string, t: string, i: nat, j: nat)
    requires Placeholder(pat) && Placeholder(t) && pat != t
    requires OccursAt(s, pat, i) && OccursAt(s, t, j)
    ensures j + |t| <= i || i + |pat| <= j
  {
    if i < j < i + |pat| {
      SameChar(s, pat, t, i, j, j - i, 0);
    } else if j < i < j + |t| {
      SameChar(s, pat, t, i, j, 0, i - j);
    } else if i == j && |t| < |pat| {
      SameChar(s, pat, t, i, j, |t| - 1, |t| - 1);
    } else if i == j && |pat| < |t| {
      SameChar(s, pat, t, i, j, |pat| - 1, |pat| - 1);
    } else if i == j {
      SameSlice(s, pat, t, i);
    }
  }

  lemma SameChar(s: string, pat: string, t: string, i: nat, j: nat, a: nat, b: nat)
    requires OccursAt(s, pat, i) && OccursAt(s, t, j)
    requires a < |pat| && b < |t| && i + a == j + b
    ensures pat[a] == t[b]
  {
    assert s[i..i + |pat|][a] == s[i + a];
    assert s[j..j + |t|][b] == s[j + b];
  }

  lemma SameSlice(s: string, pat: string, t: string, i: nat)
    requires OccursAt(s, pat, i) && OccursAt(s, t, i) && |pat| == |t|
    ensures pat == t
  {
  }

  /** Text outside the replaced occurrence survives the replacement. */
  lemma KeptAround(s: string, pat: string, rep: string, t: string, i: nat, j: nat)
    requires FirstOccurrence(s, pat, i) && OccursAt(s, t, j)
    requires j + |t| <= i || i + |pat| <= j
    ensures Includes(ReplaceFirst(s, pat, rep), t)
  {
    ReplaceAt(s, pat, rep, i);
    var r := ReplaceFirst(s, pat, rep);
    var head, tail := s[..i], s[i + |pat|..];
    if j + |t| <= i {
      assert r[..i] == head;
      assert r[j..j + |t|] == head[j..j + |t|];
      IncludesIff(r, t);
      assert OccursAt(r, t, j);
    } else {
      var j' := j - |pat| + |rep|;
      assert r[i + |rep|..] == tail;
      assert r[j'..j' + |t|] == tail[j - i - |pat|..j - i - |pat| + |t|];
      IncludesIff(r, t);
      assert OccursAt(r, t, j');
    }
  }

  /** Replacing one placeholder keeps every other placeholder the template holds. */
  lemma OtherPlaceholderKept(s: string, pat: string, rep: string, t: string)
    requires Placeholder(pat) && Placeholder(t) && pat != t
    requires Includes(s, t)
    ensures Includes(ReplaceFirst(s, pat, rep), t)
  {
    IncludesIff(s, t);
    IndexOfFirst(s, pat);
    var j: nat :| OccursAt(s, t, j);
    match IndexOfText(s, pat)
    case None =>
      IncludesIff(ReplaceFirst(s, pat, rep), t);
      assert OccursAt(ReplaceFirst(s, pat, rep), t, j);
    case Some(i) =>
      PlaceholdersDoNotOverlap(s, pat, t, i, j);
      KeptAround(s, pat, rep, t, i, j);
  }

  /**
   * The whole parameter loop keeps a placeholder that none of the parameters
   * names, provided every parameter's own placeholder is bracket-free inside.
   */
  lemma {:induction false} UnnamedPlaceholderKept(s: string, params: seq<(string, string)>, t: string)
    requires Placeholder(t) && Includes(s, t)
    requires forall p :: p in params ==> Placeholder(Token(p.0)) && Token(p.0) != t
    ensures Includes(Substitute(s, params), t)
    decreases |params|
  {
    if params != [] {
      OtherPlaceholderKept(s, Token(params[0].0), params[0].1, t);
      assert forall p :: p in params[1..] ==> p in params;
      UnnamedPlaceholderKept(ReplaceFirst(s, Token(params[0].0), params[0].1), params[1..], t);
    }
  }
}
