/** The baseline prompt loader: the category-to-file table, loading a category's
    prompt document, and rendering a template against a nested context that is
    first flattened to dotted keys. */
module PromptLoader {
  import opened PyDict
  import opened PyText
  import opened PyValue

  // ---------------------------------------------------------------------------
  // Category table

  /** `CATEGORY_TO_FILE`: the prompt file of each challenge category. */
  const CategoryToFile: Dict<string, string> := [
    ("web", "web_prompt.yaml"),
    ("pwn", "pwn_prompt.yaml"),
    ("crypto", "crypto_prompt.yaml"),
    ("forensics", "forensics_prompt.yaml"),
    ("rev", "rev_prompt.yaml"),
    ("reversing", "rev_prompt.yaml")
  ]

  /** `CATEGORY_TO_FILE.get(category.lower())` */
  function CategoryFile(category: string): (r: Option<string>)
    ensures r.None? <==> Lower(category) !in Keys(CategoryToFile)
  {
    Get(CategoryToFile, Lower(category))
  }

  /** The lookup ignores case: a category and its lower case find the same file. */
  lemma CategoryFileIgnoresCase(category: string)
    ensures CategoryFile(category) == CategoryFile(Lower(category))
  {
    LowerIdempotent(category);
  }

  /** Exactly the six listed categories (in any case) have a file, and none of
      the files is named by the empty string. */
  lemma CategoryFileKnown(category: string)
    ensures CategoryFile(category).Some?
        <==> Lower(category) in ["web", "pwn", "crypto", "forensics", "rev", "reversing"]
    ensures CategoryFile(category).Some? ==> CategoryFile(category).value != ""
  {
    assert Keys(CategoryToFile) == ["web", "pwn", "crypto", "forensics", "rev", "reversing"];
    var r := CategoryFile(category);
    if r.Some? {
      var i :| 0 <= i < |CategoryToFile| && CategoryToFile[i] == (Lower(category), r.value);
      assert CategoryToFile[i].1 != "";
    }
  }

  /** `rev` and `reversing` share a prompt file. */
  lemma RevAliases()
    ensures CategoryFile("rev") == CategoryFile("reversing") == Some("rev_prompt.yaml")
  {
    KnownCategory(4);
    KnownCategory(5);
  }

  /** Each listed category, as written in the table, finds its own file. */
  lemma KnownCategory(i: nat)
    requires i < |CategoryToFile|
    ensures CategoryFile(CategoryToFile[i].0) == Some(CategoryToFile[i].1)
  {
    var category := CategoryToFile[i].0;
    CategoryKeyLower(i);
    assert Keys(CategoryToFile) == ["web", "pwn", "crypto", "forensics", "rev", "reversing"];
    GetFirst(CategoryToFile, i);
  }

  lemma CategoryFileOfLowered(category: string)
    requires Lower(category) == category
    ensures CategoryFile(category) == Get(CategoryToFile, category)
  {
  }

  /** The keys of the table are written in lower case. */
  lemma CategoryKeyLower(i: nat)
    requires i < |CategoryToFile|
    ensures Lower(CategoryToFile[i].0) == CategoryToFile[i].0
  {
    if i == 0 {
      LowerNoUpper("web");
    } else if i == 1 {
      LowerNoUpper("pwn");
    } else if i == 2 {
      LowerNoUpper("crypto");
    } else if i == 3 {
      LowerNoUpper("forensics");
    } else if i == 4 {
      LowerNoUpper("rev");
    } else {
      LowerNoUpper("reversing");
    }
  }

  /** The lookup is by lower case: `Web` finds the `web` prompts. */
  lemma UpperCaseCategory()
    ensures CategoryFile("Web") == Some("web_prompt.yaml")
  {
    assert Lower("Web") == "web";
    GetFirst(CategoryToFile, 0);
  }

  // ---------------------------------------------------------------------------
  // Loading a category's prompts

  /** What opening and parsing a prompt file gives: an exception (a read error,
      a decoding error or a YAML syntax error) or the parsed document. */
  datatype Document = ReadFailed | Parsed(doc: Value)

  /** `os.path.join(dir, name)` for a relative `name`. */
  function JoinPath(dir: string, name: string): string {
    if dir == "" || dir[|dir| - 1] == '/' then dir + name else dir + "/" + name
  }

  /** The string-valued items of a mapping, keys passed through `str()`, in order. */
  function StringEntries(items: Dict<Scalar, Value>): (r: seq<(string, string)>)
    ensures |r| <= |items|
  {
    if items == [] then []
    else
      var last := items[|items| - 1];
      StringEntries(items[..|items| - 1])
        + (if last.1.PStr? then [(KeyText(last.0), last.1.s)] else [])
  }

  /** `data = doc or {}` followed by the comprehension over `data.items()`; a
      document that is truthy but not a mapping has no `items` and yields `None`. */
  function PromptsOf(doc: Value): (r: Option<Dict<string, string>>)
    ensures r.None? <==> Truthy(doc) && !doc.PDict?
    ensures r.Some? ==> UniqueKeys(r.value)
  {
    if !Truthy(doc) then Some([])
    else if doc.PDict? then
      PutAllUniqueKeys([], StringEntries(doc.items));
      Some(FromPairs(StringEntries(doc.items)))
    else None
  }

  /** `load_category_prompts(category)`. Whether PyYAML imported, whether a path
      exists and what reading it gives are parameters. */
  function LoadCategoryPrompts(
    category: string, yamlAvailable: bool, promptsDir: string,
    pathExists: string -> bool, read: string -> Document): (r: Option<Dict<string, string>>)
    ensures category == "" || !yamlAvailable ==> r == None
    ensures CategoryFile(category).None? ==> r == None
    ensures r.Some? ==> pathExists(JoinPath(promptsDir, CategoryFile(category).value))
  {
    if category == "" then None
    else if !yamlAvailable then None
    else match CategoryFile(category)
      case None => None
      case Some(filename) =>
        if filename == "" then None
        else
          var path := JoinPath(promptsDir, filename);
          if !pathExists(path) then None
          else match read(path)
            case ReadFailed => None
            case Parsed(doc) => PromptsOf(doc)
  }

  /** For an existing file of a known category, the outcome is decided by the
      document alone: a read or parse failure gives `None`, an empty document `{}`,
      a mapping its string entries, any other document `None`. */
  lemma LoadOfExistingFile(
    category: string, promptsDir: string, pathExists: string -> bool, read: string -> Document)
    requires category != "" && CategoryFile(category).Some?
    requires pathExists(JoinPath(promptsDir, CategoryFile(category).value))
    ensures var r := LoadCategoryPrompts(category, true, promptsDir, pathExists, read);
            match read(JoinPath(promptsDir, CategoryFile(category).value))
            case ReadFailed => r == None
            case Parsed(doc) => r == PromptsOf(doc)
  {
    CategoryFileKnown(category);
  }

  /** `str(v)` for the values the comprehension keeps: only a `str` value. */
  function StringValue(v: Option<Value>): Option<string> {
    match v
    case Some(PStr(s)) => Some(s)
    case _ => None
  }

  /** A key of the loaded prompts is the `str()` of a key whose value is a string. */
  lemma {:induction false} StringEntriesKeys(items: Dict<Scalar, Value>, k: string)
    ensures k in Keys(StringEntries(items))
        <==> exists e :: e in items && e.1.PStr? && KeyText(e.0) == k
  {
    if items != [] {
      var n := |items| - 1;
      var init, last := items[..n], items[n];
      StringEntriesKeys(init, k);
      var extra := if last.1.PStr? then [(KeyText(last.0), last.1.s)] else [];
      assert StringEntries(items) == StringEntries(init) + extra;
      KeysAppend(StringEntries(init), extra);
      assert items == init + [last];
    }
  }

  /** On a mapping, the loaded prompts hold exactly the keys, passed through
      `str()`, of the entries whose value is a string. */
  lemma LoadedKeys(items: Dict<Scalar, Value>, k: string)
    requires items != []
    ensures PromptsOf(PDict(items)).Some?
    ensures k in Keys(PromptsOf(PDict(items)).value)
        <==> exists e :: e in items && e.1.PStr? && KeyText(e.0) == k
  {
    PutAllKeys([], StringEntries(items), k);
    StringEntriesKeys(items, k);
  }

  /** With string keys, the last string entry under a key is the document's own value. */
  lemma {:induction false} StringEntriesLast(items: Dict<Scalar, Value>, k: string)
    requires forall i :: 0 <= i < |items| ==> items[i].0.SStr?
    requires UniqueKeys(items)
    ensures LastGet(StringEntries(items), k) == StringValue(LastGet(items, SStr(k)))
  {
    if items != [] {
      var init := items[..|items| - 1];
      var last := items[|items| - 1];
      var extra := if last.1.PStr? then [(KeyText(last.0), last.1.s)] else [];
      var se := StringEntries(init) + extra;
      StringEntriesLast(init, k);
      if last.1.PStr? {
        assert se[..|se| - 1] == StringEntries(init);
      } else {
        assert se == StringEntries(init);
      }
      if last.0 == SStr(k) && !last.1.PStr? {
        LastGetSome(init, SStr(k));
        assert SStr(k) !in Keys(init) by {
          forall j | 0 <= j < |init| ensures Keys(init)[j] != SStr(k) {
            assert init[j].0 == items[j].0 != items[|items| - 1].0;
          }
        }
      }
    }
  }

  /** Item `i` of a mapping is kept by the comprehension and stored under `k`. */
  predicate StringUnder(items: Dict<Scalar, Value>, i: int, k: string) {
    0 <= i < |items| && items[i].1.PStr? && KeyText(items[i].0) == k
  }

  /** Item `i` is the last item that is kept and stored under `k`. */
  predicate LastStringUnder(items: Dict<Scalar, Value>, i: int, k: string) {
    StringUnder(items, i, k) && forall j :: i < j < |items| ==> !StringUnder(items, j, k)
  }

  /** For keys of any type: the last string entry under `k` is the value of the last
      string-valued item whose key's `str()` is `k`, and there is one exactly when
      some string-valued item's key gives `k`. */
  lemma {:induction false} StringEntriesLastAny(items: Dict<Scalar, Value>, k: string)
    ensures LastGet(StringEntries(items), k).Some? <==> exists i :: StringUnder(items, i, k)
    ensures LastGet(StringEntries(items), k).Some? ==>
      exists i :: LastStringUnder(items, i, k) && items[i].1 == PStr(LastGet(StringEntries(items), k).value)
  {
    if items != [] {
      var n := |items| - 1;
      var init, last := items[..n], items[n];
      var extra := if last.1.PStr? then [(KeyText(last.0), last.1.s)] else [];
      var se := StringEntries(init) + extra;
      assert StringEntries(items) == se;
      StringEntriesLastAny(init, k);
      if StringUnder(items, n, k) {
        assert LastStringUnder(items, n, k);
      } else {
        if last.1.PStr? {
          assert se[..|se| - 1] == StringEntries(init);
        } else {
          assert se == StringEntries(init);
        }
        assert LastGet(se, k) == LastGet(StringEntries(init), k);
        forall i | StringUnder(init, i, k) ensures StringUnder(items, i, k) {
          assert items[i] == init[i];
        }
        forall i | StringUnder(items, i, k) ensures StringUnder(init, i, k) {
          assert items[i] == init[i];
        }
        if LastGet(se, k).Some? {
          var i :| LastStringUnder(init, i, k) && init[i].1 == PStr(LastGet(se, k).value);
          assert items[i] == init[i];
          forall j | i < j < |items| ensures !StringUnder(items, j, k) {
            if j < n {
              assert items[j] == init[j];
              assert !StringUnder(init, j, k);
            }
          }
          assert LastStringUnder(items, i, k);
        }
      }
    }
  }

  /** The loader's main promise, for a mapping with keys of any type: the prompt
      loaded under `k` is the value of the last string-valued entry whose key's
      `str()` is `k`, and there is one exactly when such an entry exists. */
  lemma LoadedPromptIsLastString(items: Dict<Scalar, Value>, k: string)
    requires items != []
    ensures PromptsOf(PDict(items)).Some?
    ensures Get(PromptsOf(PDict(items)).value, k).Some? <==> exists i :: StringUnder(items, i, k)
    ensures Get(PromptsOf(PDict(items)).value, k).Some? ==>
      exists i :: LastStringUnder(items, i, k) && items[i].1 == PStr(Get(PromptsOf(PDict(items)).value, k).value)
  {
    PutAllGet([], StringEntries(items), k);
    StringEntriesLastAny(items, k);
  }

  /** `{1: "a", "x": "b", "1": "c"}` loads as `{"1": "c", "x": "b"}`: the keys `1`
      and `"1"` collide, the later value wins, and it keeps the first key's place. */
  lemma LoadedKeyCollision()
    ensures PromptsOf(PDict([(SInt(1), PStr("a")), (SStr("x"), PStr("b")), (SStr("1"), PStr("c"))]))
         == Some([("1", "c"), ("x", "b")])
  {
    var items := [(SInt(1), PStr("a")), (SStr("x"), PStr("b")), (SStr("1"), PStr("c"))];
    CollisionEntries();
    var se := [("1", "a"), ("x", "b"), ("1", "c")];
    assert PutAll([], se[..1]) == [("1", "a")];
    assert PutAll([], se[..2]) == Put([("1", "a")], "x", "b");
    assert Put([("1", "a")], "x", "b") == [("1", "a"), ("x", "b")];
    assert PutAll([], se) == Put([("1", "a"), ("x", "b")], "1", "c");
    assert Put([("1", "a"), ("x", "b")], "1", "c") == [("1", "c"), ("x", "b")];
    assert Truthy(PDict(items));
  }

  /** The string entries of the colliding mapping, keys through `str()`. */
  lemma CollisionEntries()
    ensures StringEntries([(SInt(1), PStr("a")), (SStr("x"), PStr("b")), (SStr("1"), PStr("c"))])
         == [("1", "a"), ("x", "b"), ("1", "c")]
  {
    var items := [(SInt(1), PStr("a")), (SStr("x"), PStr("b")), (SStr("1"), PStr("c"))];
    assert KeyText(SInt(1)) == "1";
    assert items[..1] == [(SInt(1), PStr("a"))];
    assert items[..2] == [(SInt(1), PStr("a")), (SStr("x"), PStr("b"))];
    assert StringEntries(items[..1]) == [("1", "a")];
    assert StringEntries(items[..2]) == [("1", "a"), ("x", "b")];
  }

  /** The loader's main promise, for a document whose keys are strings: the loaded
      prompt under `k` is the document's value under `k` when that is a string, and
      there is none otherwise. */
  lemma LoadedPromptIsDocumentString(items: Dict<Scalar, Value>, k: string)
    requires items != []
    requires forall i :: 0 <= i < |items| ==> items[i].0.SStr?
    requires UniqueKeys(items)
    ensures PromptsOf(PDict(items)).Some?
    ensures Get(PromptsOf(PDict(items)).value, k) == StringValue(Field(PDict(items), k))
  {
    PutAllGet([], StringEntries(items), k);
    StringEntriesLast(items, k);
    LastGetIsGet(items, SStr(k));
  }

  /** An empty or null document loads as no prompts; a list document fails. */
  lemma PromptsOfExamples()
    ensures PromptsOf(PNone) == Some([])
    ensures PromptsOf(PDict([])) == Some([])
    ensures PromptsOf(PList([PStr("x")])) == None
    ensures PromptsOf(PDict([(SStr("system"), PStr("s")), (SStr("n"), PInt(1))]))
         == Some([("system", "s")])
  {
    var items := [(SStr("system"), PStr("s")), (SStr("n"), PInt(1))];
    assert items[..1] == [(SStr("system"), PStr("s"))];
    assert StringEntries(items[..1]) == [("system", "s")];
    assert StringEntries(items) == [("system", "s")];
  }

  // ---------------------------------------------------------------------------
  // Flattening the template context

  /** The key `_flatten` gives child `k` under `prefix`: `prefix.k`, or `str(k)`
      when the prefix is empty. */
  function ChildKey(prefix: string, k: Scalar): string {
    if prefix != "" then prefix + "." + KeyText(k) else KeyText(k)
  }

  /** The stores `_flatten(prefix, obj)` makes into `flat`, in order. */
  function FlatWrites(prefix: string, obj: Value): seq<(string, Value)>
    decreases obj, 1
  {
    if obj.PDict? then ItemsWrites(prefix, obj, |obj.items|) else [(prefix, obj)]
  }

  /** The stores made for the first `n` items of the dict `obj`. */
  function ItemsWrites(prefix: string, obj: Value, n: nat): seq<(string, Value)>
    requires obj.PDict? && n <= |obj.items|
    decreases obj, 0, n
  {
    if n == 0 then []
    else
      var item := obj.items[n - 1];
      assert item in obj.items;
      ItemsWrites(prefix, obj, n - 1) + FlatWrites(ChildKey(prefix, item.0), item.1)
  }

  /** The flat mapping `_flatten` fills in. */
  class Flattener {
    var flat: Dict<string, Value>

    constructor()
      ensures flat == []
    {
      flat := [];
    }

    /** `_flatten(prefix, obj)`: a dict is walked item by item, recursing with the
        extended key; anything else is stored under `prefix`. */
    method Flatten(prefix: string, obj: Value)
      modifies this
      ensures flat == PutAll(old(flat), FlatWrites(prefix, obj))
      decreases obj, 1
    {
      if obj.PDict? {
        var i := 0;
        while i < |obj.items|
          invariant 0 <= i <= |obj.items|
          invariant flat == PutAll(old(flat), ItemsWrites(prefix, obj, i))
        {
          var item := obj.items[i];
          assert item in obj.items;
          Flatten(ChildKey(prefix, item.0), item.1);
          ItemsWritesStep(old(flat), prefix, obj, i);
          i := i + 1;
        }
        assert ItemsWrites(prefix, obj, |obj.items|) == FlatWrites(prefix, obj);
      } else {
        flat := Put(flat, prefix, obj);
        assert FlatWrites(prefix, obj)[..0] == [];
      }
    }
  }

  /** One more item of the dict: its stores follow those of the items before it. */
  lemma ItemsWritesStep(d: Dict<string, Value>, prefix: string, obj: Value, i: nat)
    requires obj.PDict? && i < |obj.items|
    ensures PutAll(d, ItemsWrites(prefix, obj, i + 1))
         == PutAll(PutAll(d, ItemsWrites(prefix, obj, i)),
                   FlatWrites(ChildKey(prefix, obj.items[i].0), obj.items[i].1))
  {
    PutAllConcat(d, ItemsWrites(prefix, obj, i),
                 FlatWrites(ChildKey(prefix, obj.items[i].0), obj.items[i].1));
  }

  /** Every value stored is a leaf: dicts are walked, never stored. */
  lemma {:induction false} FlatWritesLeaves(prefix: string, obj: Value)
    ensures forall j :: 0 <= j < |FlatWrites(prefix, obj)| ==> !FlatWrites(prefix, obj)[j].1.PDict?
    decreases obj, 1
  {
    if obj.PDict? {
      ItemsWritesLeaves(prefix, obj, |obj.items|);
    }
  }

  lemma {:induction false} ItemsWritesLeaves(prefix: string, obj: Value, n: nat)
    requires obj.PDict? && n <= |obj.items|
    ensures forall j :: 0 <= j < |ItemsWrites(prefix, obj, n)| ==> !ItemsWrites(prefix, obj, n)[j].1.PDict?
    decreases obj, 0, n
  {
    if n > 0 {
      var item := obj.items[n - 1];
      assert item in obj.items;
      ItemsWritesLeaves(prefix, obj, n - 1);
      FlatWritesLeaves(ChildKey(prefix, item.0), item.1);
    }
  }

  /** Under a non-empty prefix, every key stored is the prefix itself (a leaf) or
      the prefix followed by `.` and the nested keys. */
  lemma {:induction false} FlatWritesUnderPrefix(prefix: string, obj: Value)
    requires prefix != ""
    ensures forall j :: 0 <= j < |FlatWrites(prefix, obj)| ==>
              FlatWrites(prefix, obj)[j].0 == prefix
              || StartsWith(FlatWrites(prefix, obj)[j].0, prefix + ".")
    decreases obj, 1
  {
    if obj.PDict? {
      ItemsWritesUnderPrefix(prefix, obj, |obj.items|);
    }
  }

  lemma {:induction false} ItemsWritesUnderPrefix(prefix: string, obj: Value, n: nat)
    requires prefix != "" && obj.PDict? && n <= |obj.items|
    ensures forall j :: 0 <= j < |ItemsWrites(prefix, obj, n)| ==>
              StartsWith(ItemsWrites(prefix, obj, n)[j].0, prefix + ".")
    decreases obj, 0, n
  {
    if n > 0 {
      var item := obj.items[n - 1];
      assert item in obj.items;
      var child := ChildKey(prefix, item.0);
      var w := FlatWrites(child, item.1);
      ItemsWritesUnderPrefix(prefix, obj, n - 1);
      FlatWritesUnderPrefix(child, item.1);
      forall j | 0 <= j < |w| ensures StartsWith(w[j].0, prefix + ".") {
        assert StartsWith(child, prefix + ".");
        if w[j].0 != child {
          assert w[j].0[..|child|] == child;
          assert w[j].0[..|prefix + "."|] == child[..|prefix + "."|];
        }
      }
    }
  }

  /** A top-level leaf is stored under `str(key)` with no prefix; for a context of
      leaves the stores are its items in order, keys passed through `str()`. */
  lemma {:induction false} FlatTopLevelLeaves(obj: Value, n: nat)
    requires obj.PDict? && n <= |obj.items|
    requires forall i :: 0 <= i < |obj.items| ==> !obj.items[i].1.PDict?
    ensures ItemsWrites("", obj, n) == seq(n, i requires 0 <= i < n => (KeyText(obj.items[i].0), obj.items[i].1))
  {
    if n > 0 {
      FlatTopLevelLeaves(obj, n - 1);
    }
  }

  /** A nested dict becomes dotted keys, and an empty nested dict stores nothing. */
  lemma FlatWritesExamples()
    ensures FlatWrites("", PDict([(SStr("challenge"), PDict([(SStr("name"), PStr("x"))]))]))
         == [("challenge.name", PStr("x"))]
    ensures FlatWrites("", PDict([(SStr("a"), PDict([])), (SStr("b"), PInt(1))]))
         == [("b", PInt(1))]
    ensures FlatWrites("", PInt(7)) == [("", PInt(7))]
  {
    var inner := PDict([(SStr("name"), PStr("x"))]);
    assert ChildKey("challenge", SStr("name")) == "challenge.name";
    assert ItemsWrites("challenge", inner, 1) == [] + FlatWrites("challenge.name", PStr("x"));
    var outer := PDict([(SStr("challenge"), inner)]);
    assert ItemsWrites("", outer, 1) == [] + FlatWrites("challenge", inner);
    var o := PDict([(SStr("a"), PDict([])), (SStr("b"), PInt(1))]);
    assert ItemsWrites("", o, 1) == [];
  }

  /** The leaves of a context, depth first and in item order: the keys leading to
      each value that is not a dict, with that value. An empty dict has no leaves;
      anything other than a dict is a single leaf with an empty path. */
  function LeafPaths(obj: Value): seq<(seq<Scalar>, Value)>
    decreases obj, 1
  {
    if obj.PDict? then ItemLeafPaths(obj, |obj.items|) else [([], obj)]
  }

  /** The leaves under the first `n` items of the dict `obj`. */
  function ItemLeafPaths(obj: Value, n: nat): seq<(seq<Scalar>, Value)>
    requires obj.PDict? && n <= |obj.items|
    decreases obj, 0, n
  {
    if n == 0 then []
    else
      var item := obj.items[n - 1];
      assert item in obj.items;
      ItemLeafPaths(obj, n - 1) + Under(item.0, LeafPaths(item.1))
  }

  /** The same leaves, one level down, under the key `k`. */
  function Under(k: Scalar, leaves: seq<(seq<Scalar>, Value)>): seq<(seq<Scalar>, Value)> {
    seq(|leaves|, i requires 0 <= i < |leaves| => ([k] + leaves[i].0, leaves[i].1))
  }

  /** The key built from `prefix` along `path`, one `ChildKey` step per key. */
  function DottedKey(prefix: string, path: seq<Scalar>): string
    decreases |path|
  {
    if path == [] then prefix else DottedKey(ChildKey(prefix, path[0]), path[1..])
  }

  /** Each leaf under the key its path builds from `prefix`. */
  function Keyed(prefix: string, leaves: seq<(seq<Scalar>, Value)>): seq<(string, Value)> {
    seq(|leaves|, i requires 0 <= i < |leaves| => (DottedKey(prefix, leaves[i].0), leaves[i].1))
  }

  lemma KeyedAppend(prefix: string, a: seq<(seq<Scalar>, Value)>, b: seq<(seq<Scalar>, Value)>)
    ensures Keyed(prefix, a + b) == Keyed(prefix, a) + Keyed(prefix, b)
  {
  }

  /** Going one level down under `k` is starting from the child key of `k`. */
  lemma KeyedUnder(prefix: string, k: Scalar, leaves: seq<(seq<Scalar>, Value)>)
    ensures Keyed(prefix, Under(k, leaves)) == Keyed(ChildKey(prefix, k), leaves)
  {
    forall i | 0 <= i < |leaves|
      ensures Keyed(prefix, Under(k, leaves))[i] == Keyed(ChildKey(prefix, k), leaves)[i]
    {
      var path := [k] + leaves[i].0;
      assert path[0] == k && path[1..] == leaves[i].0;
    }
  }

  /** `_flatten(prefix, obj)` stores exactly the leaves of `obj`, depth first in item
      order, each under the key its path builds from `prefix`. */
  lemma {:induction false} FlatWritesAreLeafPaths(prefix: string, obj: Value)
    ensures FlatWrites(prefix, obj) == Keyed(prefix, LeafPaths(obj))
    decreases obj, 1
  {
    if obj.PDict? {
      ItemsWritesAreLeafPaths(prefix, obj, |obj.items|);
    }
  }

  lemma {:induction false} ItemsWritesAreLeafPaths(prefix: string, obj: Value, n: nat)
    requires obj.PDict? && n <= |obj.items|
    ensures ItemsWrites(prefix, obj, n) == Keyed(prefix, ItemLeafPaths(obj, n))
    decreases obj, 0, n
  {
    if n > 0 {
      var item := obj.items[n - 1];
      assert item in obj.items;
      ItemsWritesAreLeafPaths(prefix, obj, n - 1);
      FlatWritesAreLeafPaths(ChildKey(prefix, item.0), item.1);
      KeyedAppend(prefix, ItemLeafPaths(obj, n - 1), Under(item.0, LeafPaths(item.1)));
      KeyedUnder(prefix, item.0, LeafPaths(item.1));
    }
  }

  /** Keys are joined with `.`, except that an empty key text leaves the prefix
      empty, so the next key gets no leading dot. */
  lemma DottedKeyExamples()
    ensures DottedKey("", [SStr("challenge"), SStr("name")]) == "challenge.name"
    ensures DottedKey("", [SStr(""), SStr("a")]) == "a"
    ensures DottedKey("", [SStr("a"), SStr(""), SStr("b")]) == "a..b"
  {
    assert [SStr("challenge"), SStr("name")][1..] == [SStr("name")];
    assert [SStr(""), SStr("a")][1..] == [SStr("a")];
    assert [SStr("a"), SStr(""), SStr("b")][1..] == [SStr(""), SStr("b")];
    assert [SStr(""), SStr("b")][1..] == [SStr("b")];
  }

  // ---------------------------------------------------------------------------
  // Rendering

  /** The flat items with leading dots stripped from their keys. */
  function StrippedItems(flat: Dict<string, Value>): (r: seq<(string, Value)>)
    ensures |r| == |flat|
    ensures forall i :: 0 <= i < |flat| ==> r[i] == (LStripChar(flat[i].0, '.'), flat[i].1)
  {
    seq(|flat|, i requires 0 <= i < |flat| => (LStripChar(flat[i].0, '.'), flat[i].1))
  }

  /** `{k.lstrip('.'): v for k, v in flat.items()}` */
  function StripDots(flat: Dict<string, Value>): (r: Dict<string, Value>)
    ensures UniqueKeys(r)
  {
    PutAllUniqueKeys([], StrippedItems(flat));
    FromPairs(StrippedItems(flat))
  }

  /** No key of the rebuilt mapping starts with a dot. */
  lemma StripDotsNoLeadingDot(flat: Dict<string, Value>, k: string)
    ensures k in Keys(StripDots(flat)) ==> k == "" || k[0] != '.'
  {
    var items := StrippedItems(flat);
    assert StripDots(flat) == PutAll([], items);
    PutAllKeys([], items, k);
    if k in Keys(items) {
      var i :| 0 <= i < |items| && Keys(items)[i] == k;
      assert k == LStripChar(flat[i].0, '.');
    }
  }

  /** Each key of the rebuilt mapping holds the value of the last item that strips
      to it, as the dict comprehension stores the items in order. */
  lemma StripDotsGet(flat: Dict<string, Value>, k: string)
    ensures Get(StripDots(flat), k) == LastGet(StrippedItems(flat), k)
  {
    var items := StrippedItems(flat);
    assert StripDots(flat) == PutAll([], items);
    PutAllGet([], items, k);
  }

  /** When `.a` and `a` both occur, the later one wins. */
  lemma StripDotsCollision()
    ensures Get(StripDots([(".a", PInt(1)), ("a", PInt(2))]), "a") == Some(PInt(2))
  {
    var flat := [(".a", PInt(1)), ("a", PInt(2))];
    assert LStripChar(".a", '.') == "a" by {
      assert ".a"[1..] == "a";
    }
    assert StrippedItems(flat) == [("a", PInt(1)), ("a", PInt(2))];
    StripDotsGet(flat, "a");
  }

  /** In the other order, `.a` comes later and wins. */
  lemma StripDotsCollisionReversed()
    ensures Get(StripDots([("a", PInt(2)), (".a", PInt(1))]), "a") == Some(PInt(1))
  {
    var flat := [("a", PInt(2)), (".a", PInt(1))];
    assert LStripChar(".a", '.') == "a" by {
      assert ".a"[1..] == "a";
    }
    assert StrippedItems(flat) == [("a", PInt(2)), ("a", PInt(1))];
    StripDotsGet(flat, "a");
  }

  /** The keyword arguments `template.format` receives. */
  function FlatContext(context: Value): (r: Dict<string, Value>)
    ensures UniqueKeys(r)
  {
    StripDots(PutAll([], FlatWrites("", context)))
  }

  /** `render_template(template, context)`. `format(t, kwargs)` stands for
      `t.format(**kwargs)`: `None` when it raises. */
  method RenderTemplate(
    template: string, context: Value,
    format: (string, Dict<string, Value>) -> Option<string>) returns (r: string)
    ensures template == "" ==> r == ""
    ensures template != "" && format(template, FlatContext(context)).None? ==> r == template
    ensures template != "" && format(template, FlatContext(context)).Some?
        ==> r == format(template, FlatContext(context)).value
  {
    if template == "" {
      return "";
    }
    var f := new Flattener();
    f.Flatten("", context);
    ghost var expected := FlatContext(context);
    assert f.flat == PutAll([], FlatWrites("", context));
    var kwargs := StripDots(f.flat);
    assert kwargs == expected;
    var formatted := format(template, kwargs);
    if formatted.Some? {
      r := formatted.value;
    } else {
      r := template;
    }
  }
}
