/** The translation lookup `t(key, replacements)` shared, as two copies of one
    algorithm, by src/hooks/useI18n.tsx and src/context/LanguageProvider.tsx:
    a dotted key is walked through the nested translation object of the
    active language, the walk restarts in English when a segment is missing,
    and `{name}` placeholders are then filled in. */
module Translation {
  import opened Wrappers
  import opened Text
  import opened Locale

  /** A translation object: a string, or an object of further entries. */
  datatype Entry = Leaf(text: string) | Node(children: map<string, Entry>)

  /** The `translations` record: one tree per language. */
  datatype Catalog = Catalog(en: Entry, ar: Entry)

  /** Both trees empty, as before the locale files have loaded. */
  const EmptyCatalog: Catalog := Catalog(Node(map[]), Node(map[]))

  function Table(c: Catalog, l: Language): Entry {
    match l
    case En => c.en
    case Ar => c.ar
  }

  /** One step of the walk: it succeeds only on an object that has the
      segment as a key. */
  function Step(value: Entry, k: string): (r: Option<Entry>)
    ensures r.Some? <==> value.Node? && k in value.children
    ensures r.Some? ==> r.value == value.children[k]
  {
    match value
    case Node(children) => if k in children then Some(children[k]) else None
    case Leaf(_) => None
  }

  /** The entry reached from `root` by following every segment of `keys`,
      or None once a segment does not resolve. */
  function Walk(root: Entry, keys: seq<string>): Option<Entry>
    decreases |keys|
  {
    if keys == [] then Some(root)
    else
      match Step(root, keys[0])
      case None => None
      case Some(child) => Walk(child, keys[1..])
  }

  /** Walking `a + b` is walking `a`, then walking `b` from where it ended. */
  lemma {:induction false} WalkAppend(root: Entry, a: seq<string>, b: seq<string>)
    ensures Walk(root, a + b) == match Walk(root, a) case None => None case Some(v) => Walk(v, b)
    decreases |a|
  {
    if a != [] {
      assert (a + b)[0] == a[0];
      assert (a + b)[1..] == a[1..] + b;
      match Step(root, a[0])
      case None =>
      case Some(child) =>
        assert Walk(root, a) == Walk(child, a[1..]);
        assert Walk(root, a + b) == Walk(child, a[1..] + b);
        WalkAppend(child, a[1..], b);
    } else {
      assert a + b == b;
    }
  }

  /** Extending a successful walk by one segment. */
  lemma WalkExtend(root: Entry, keys: seq<string>, i: nat, value: Entry)
    requires i < |keys| && Walk(root, keys[..i]) == Some(value)
    ensures Walk(root, keys[..i + 1]) == Step(value, keys[i])
  {
    assert keys[..i + 1] == keys[..i] + [keys[i]];
    WalkAppend(root, keys[..i], [keys[i]]);
  }

  /** A walk that fails after `i` segments fails on the whole key. */
  lemma WalkStuck(root: Entry, keys: seq<string>, i: nat, value: Entry)
    requires i < |keys| && Walk(root, keys[..i]) == Some(value)
    requires Step(value, keys[i]).None?
    ensures Walk(root, keys) == None
  {
    WalkExtend(root, keys, i, value);
    assert keys == keys[..i + 1] + keys[i + 1..];
    WalkAppend(root, keys[..i + 1], keys[i + 1..]);
  }

  /** The string a key resolves to: the active language's entry when its
      walk succeeds, the English entry when it does not, and nothing when
      the entry so found is not a string. A subtree found in the active
      language is not retried in English. */
  function Lookup(c: Catalog, l: Language, key: string): Option<string> {
    var keys := SplitOn(key, '.');
    var found: Option<Entry> :=
      match Walk(Table(c, l), keys)
      case Some(v) => Some(v)
      case None => Walk(c.en, keys);
    match found
    case Some(Leaf(s)) => Some(s)
    case _ => None
  }

  /** The placeholder `{name}`. */
  function Placeholder(name: string): (p: string)
    ensures |p| == |name| + 2 && p[0] == '{'
  {
    "{" + name + "}"
  }

  /** The `reduce` over the replacement names, in key order: every
      occurrence of `{name}` is replaced by its value, one name at a time. */
  function Substitute(s: string, replacements: seq<(string, string)>): string
    decreases |replacements|
  {
    if replacements == [] then s
    else
      var (name, value) := replacements[0];
      Substitute(ReplaceAll(s, Placeholder(name), value), replacements[1..])
  }

  /** What `t` returns: the key itself when no string is found, the found
      string with its placeholders filled in otherwise. */
  function Translate(c: Catalog, l: Language, key: string, replacements: seq<(string, string)>): string {
    match Lookup(c, l, key)
    case None => key
    case Some(s) => Substitute(s, replacements)
  }

  /** The loops of `t`: the walk through the active language, the nested
      English walk with its early `return key`, the `break`, the string test
      and the substitution. */
  method Resolve(c: Catalog, l: Language, key: string, replacements: seq<(string, string)>)
    returns (r: string)
    ensures r == Translate(c, l, key, replacements)
  {
    var keys := SplitOn(key, '.');
    var root := Table(c, l);
    var value := root;
    var fellBack := false;
    var i := 0;
    while i < |keys|
      invariant 0 <= i <= |keys|
      invariant !fellBack ==> Walk(root, keys[..i]) == Some(value)
      invariant fellBack ==> i == |keys| && Walk(root, keys) == None && Walk(c.en, keys) == Some(value)
      decreases |keys| - i, if fellBack then 0 else 1
    {
      var next := Step(value, keys[i]);
      if next.Some? {
        WalkExtend(root, keys, i, value);
        value := next.value;
        i := i + 1;
      } else {
        WalkStuck(root, keys, i, value);
        value := c.en;
        var j := 0;
        while j < |keys|
          invariant 0 <= j <= |keys|
          invariant Walk(c.en, keys[..j]) == Some(value)
        {
          var fallback := Step(value, keys[j]);
          if fallback.None? {
            WalkStuck(c.en, keys, j, value);
            return key;
          }
          WalkExtend(c.en, keys, j, value);
          value := fallback.value;
          j := j + 1;
        }
        assert keys[..j] == keys;
        fellBack := true;
        i := |keys|;
        break;
      }
    }
    if !fellBack {
      assert keys[..i] == keys;
    }
    if !value.Leaf? {
      return key;
    }
    r := Substitute(value.text, replacements);
  }

  // ------------------------------------------------------------ lookup laws

  /** A key that resolves to a string in the active language gives that
      string, with its placeholders filled in. */
  lemma ActiveLanguageFound(c: Catalog, l: Language, key: string, replacements: seq<(string, string)>, s: string)
    requires Walk(Table(c, l), SplitOn(key, '.')) == Some(Leaf(s))
    ensures Translate(c, l, key, replacements) == Substitute(s, replacements)
  {
  }

  /** A key that misses a segment in the active language but resolves to a
      string in English gives the English string. */
  lemma EnglishFallback(c: Catalog, l: Language, key: string, replacements: seq<(string, string)>, s: string)
    requires Walk(Table(c, l), SplitOn(key, '.')) == None
    requires Walk(c.en, SplitOn(key, '.')) == Some(Leaf(s))
    ensures Translate(c, l, key, replacements) == Substitute(s, replacements)
  {
  }

  /** A key that misses in both languages comes back verbatim. */
  lemma MissingEverywhere(c: Catalog, l: Language, key: string, replacements: seq<(string, string)>)
    requires Walk(Table(c, l), SplitOn(key, '.')) == None
    requires Walk(c.en, SplitOn(key, '.')) == None
    ensures Translate(c, l, key, replacements) == key
  {
  }

  /** A key that reaches an object in the active language comes back
      verbatim, whatever English holds under it. */
  lemma SubtreeGivesKey(c: Catalog, l: Language, key: string, replacements: seq<(string, string)>, children: map<string, Entry>)
    requires Walk(Table(c, l), SplitOn(key, '.')) == Some(Node(children))
    ensures Translate(c, l, key, replacements) == key
  {
  }

  /** Every result is the key, or a string stored in the active language or
      in English, with its placeholders filled in. */
  lemma TranslateProvenance(c: Catalog, l: Language, key: string, replacements: seq<(string, string)>)
    ensures var r := Translate(c, l, key, replacements);
            r == key
            || exists s :: (Walk(Table(c, l), SplitOn(key, '.')) == Some(Leaf(s))
                            || Walk(c.en, SplitOn(key, '.')) == Some(Leaf(s)))
                           && r == Substitute(s, replacements)
  {
    match Lookup(c, l, key)
    case None =>
    case Some(s) =>
      assert Walk(Table(c, l), SplitOn(key, '.')) == Some(Leaf(s))
             || Walk(c.en, SplitOn(key, '.')) == Some(Leaf(s));
  }

  /** Before the locale files load, every key comes back verbatim. */
  lemma EmptyCatalogGivesKey(l: Language, key: string, replacements: seq<(string, string)>)
    ensures Translate(EmptyCatalog, l, key, replacements) == key
  {
    var keys := SplitOn(key, '.');
    assert Walk(Table(EmptyCatalog, l), keys) == None;
    assert Walk(EmptyCatalog.en, keys) == None;
  }

  /** English needs no fallback: looking up in English is walking the
      English tree once. */
  lemma EnglishLookup(c: Catalog, key: string)
    ensures Lookup(c, En, key) == match Walk(c.en, SplitOn(key, '.')) case Some(Leaf(s)) => Some(s) case _ => None
  {
  }

  // ------------------------------------------------------ placeholder laws

  /** Without replacements the string is returned unchanged. */
  lemma SubstituteNothing(s: string)
    ensures Substitute(s, []) == s
  {
  }

  /** A string with no `{` has no placeholder, and no replacement changes
      it. */
  lemma {:induction false} SubstituteWithoutBraces(s: string, replacements: seq<(string, string)>)
    requires '{' !in s
    ensures Substitute(s, replacements) == s
    decreases |replacements|
  {
    if replacements != [] {
      var (name, value) := replacements[0];
      AbsentCharacter(s, Placeholder(name), 0);
      ReplaceAllAbsent(s, Placeholder(name), value);
      SubstituteWithoutBraces(s, replacements[1..]);
    }
  }

  /** Replacements are applied in key order: the list splits at any point
      into two passes. */
  lemma {:induction false} SubstituteAppend(s: string, a: seq<(string, string)>, b: seq<(string, string)>)
    ensures Substitute(s, a + b) == Substitute(Substitute(s, a), b)
    decreases |a|
  {
    if a != [] {
      assert (a + b)[0] == a[0];
      assert (a + b)[1..] == a[1..] + b;
      var (name, value) := a[0];
      var next := ReplaceAll(s, Placeholder(name), value);
      assert Substitute(s, a + b) == Substitute(next, a[1..] + b);
      SubstituteAppend(next, a[1..], b);
    } else {
      assert a + b == b;
    }
  }

  /** A placeholder replaced by itself leaves the string unchanged. */
  lemma SubstituteIdentity(s: string, name: string)
    ensures Substitute(s, [(name, Placeholder(name))]) == s
  {
    ReplaceAllSelf(s, Placeholder(name));
  }
}
