/** Reading the theme list out of the runtime manifest
    (`parse_themes_from_manifest` in src/theme/discovery.rs). The TOML text is
    decoded by a foreign parser, passed in as `parse`. */
module Discovery {
  import opened Wrappers
  import opened Text
  import opened Sorting
  import opened Collections
  import opened Schemes
  import opened Errors
  import opened Toml
  import opened ThemeTypes

  /** An entry of `[themes]` describes a theme when it is a table holding a
      `variants` key; other entries (such as variant details) are skipped. */
  predicate IsThemeEntry(e: Entry) {
    e.value.Table? && Lookup(e.value.entries, "variants").Some?
  }

  /** The theme's scheme: its `scheme` string parsed case-insensitively, and
      Vogix16 when the key is missing, not a string or not a scheme name. */
  function SchemeOf(table: seq<Entry>): (r: Scheme)
    ensures forall s, sc | Lookup(table, "scheme") == Some(Str(s)) && Name(sc) == Lower(s) :: r == sc
    ensures (forall s | Lookup(table, "scheme") == Some(Str(s)) :: forall sc :: Name(sc) != Lower(s)) ==> r == Vogix16
  {
    var s := AsStr(Lookup(table, "scheme")).UnwrapOr("vogix16");
    var p := Parse(s);
    if p.Ok? then
      assert forall sc | Name(sc) == Lower(s) :: sc == p.value by {
        forall sc | Name(sc) == Lower(s) ensures sc == p.value {
          NameInjective(sc, p.value);
        }
      }
      p.value
    else Vogix16
  }

  /** Strings as TOML string values. */
  function Strs(names: seq<string>): seq<Value> {
    seq(|names|, k requires 0 <= k < |names| => Str(names[k]))
  }

  /** `filter_map(as_str)`: the string elements of an array, in order. Read as
      values, the result is a subsequence of the array holding every string
      element as often as the array does, so it is exactly the array with its
      other elements dropped. */
  function StringItems(items: seq<Value>): (r: seq<string>)
    ensures |r| <= |items|
    ensures forall s :: s in r <==> Str(s) in items
    ensures Subsequence(Strs(r), items)
    ensures forall v: Value | v.Str? :: multiset(Strs(r))[v] == multiset(items)[v]
    decreases |items|
  {
    if |items| == 0 then []
    else
      var rest := StringItems(items[1..]);
      assert items == [items[0]] + items[1..];
      var r := if items[0].Str? then [items[0].s] + rest else rest;
      StringItemsStep(items, rest);
      r
  }

  lemma StrsCons(s: string, rest: seq<string>)
    ensures Strs([s] + rest) == [Str(s)] + Strs(rest)
  {
    var r := [s] + rest;
    forall k | 0 <= k < |r|
      ensures Strs(r)[k] == ([Str(s)] + Strs(rest))[k]
    {
      if k > 0 {
        assert r[k] == rest[k - 1];
      }
    }
  }

  /** The head of the array contributes its string, if it is one, in front of
      the strings of the tail. */
  lemma StringItemsStep(items: seq<Value>, rest: seq<string>)
    requires |items| > 0
    requires Subsequence(Strs(rest), items[1..])
    requires forall v: Value | v.Str? :: multiset(Strs(rest))[v] == multiset(items[1..])[v]
    ensures var r := if items[0].Str? then [items[0].s] + rest else rest;
            && Subsequence(Strs(r), items)
            && forall v: Value | v.Str? :: multiset(Strs(r))[v] == multiset(items)[v]
  {
    var strs := if items[0].Str? then [items[0]] + Strs(rest) else Strs(rest);
    if items[0].Str? {
      StrsCons(items[0].s, rest);
    }
    assert Subsequence(strs, items) by {
      SubsequenceStep(Strs(rest), items, items[0].Str?);
    }
    StringCounts(items, Strs(rest));
  }

  /** Putting the head in front of the tail's strings when it is a string
      keeps every string's count equal to the array's. */
  lemma StringCounts(items: seq<Value>, tail: seq<Value>)
    requires |items| > 0
    requires forall v: Value | v.Str? :: multiset(tail)[v] == multiset(items[1..])[v]
    ensures var strs := if items[0].Str? then [items[0]] + tail else tail;
            forall v: Value | v.Str? :: multiset(strs)[v] == multiset(items)[v]
  {
    var strs := if items[0].Str? then [items[0]] + tail else tail;
    assert items == [items[0]] + items[1..];
    forall v: Value | v.Str?
      ensures multiset(strs)[v] == multiset(items)[v]
    {
      assert multiset(items)[v] == multiset([items[0]])[v] + multiset(items[1..])[v];
      if items[0].Str? {
        assert multiset(strs)[v] == multiset([items[0]])[v] + multiset(tail)[v];
      } else {
        assert multiset([items[0]])[v] == 0;
      }
    }
  }

  /** An array of strings gives back exactly those strings, in order. */
  lemma {:induction false} StringItemsOfStrings(items: seq<Value>)
    requires forall i | 0 <= i < |items| :: items[i].Str?
    ensures |StringItems(items)| == |items|
    ensures forall i | 0 <= i < |items| :: StringItems(items)[i] == items[i].s
  {
    if |items| > 0 {
      StringItemsOfStrings(items[1..]);
    }
  }

  /** The variant names of a theme: the strings of its `variants` array, or
      "dark" and "light" when `variants` is not an array. */
  function VariantNames(table: seq<Entry>): (r: seq<string>)
    ensures AsArray(Lookup(table, "variants")).None? ==> r == ["dark", "light"]
    ensures forall items | Lookup(table, "variants") == Some(Array(items)) ::
              && (forall s :: s in r <==> Str(s) in items)
              && Subsequence(Strs(r), items)
              && (forall v: Value | v.Str? :: multiset(Strs(r))[v] == multiset(items)[v])
  {
    match AsArray(Lookup(table, "variants"))
    case Some(items) => StringItems(items)
    case None => ["dark", "light"]
  }

  /** A variant listed without a detail table is light when its lowercase
      name contains "light" or is "dawn" or "latte", and dark otherwise. */
  function InferPolarity(name: string): (r: string)
    ensures r == "light" || r == "dark"
    ensures r == "light" <==>
              (exists i :: OccursAt(Lower(name), "light", i))
              || Lower(name) == "dawn" || Lower(name) == "latte"
  {
    var l := Lower(name);
    ContainsMeansOccurs(l, "light");
    if Contains(l, "light") || l == "dawn" || l == "latte" then "light" else "dark"
  }

  /** Case does not change the inferred polarity. */
  lemma InferPolarityIgnoresCase(name: string)
    ensures InferPolarity(name) == InferPolarity(Lower(name))
  {
    LowerIdempotent(name);
  }

  /** `x as u32` on an integer: its low 32 bits. */
  function WrapU32(x: int): (r: U32)
    ensures 0 <= x < 0x1_0000_0000 ==> r == x
    ensures (x - r) % 0x1_0000_0000 == 0
  {
    x % 0x1_0000_0000
  }

  /** The variant named `name` at position `idx` of the `variants` array. A
      detail table under the variant's name inside the theme's table supplies
      `polarity` (default "dark") and `order` (default the position). */
  function VariantOf(table: seq<Entry>, name: string, idx: nat): (r: VariantInfo)
    ensures r.name == name
    ensures AsTable(Lookup(table, name)).None? ==>
              r.polarity == InferPolarity(name) && r.order == WrapU32(idx)
    ensures forall d | Lookup(table, name) == Some(Table(d)) ::
              && r.polarity == AsStr(Lookup(d, "polarity")).UnwrapOr("dark")
              && r.order == WrapU32(AsInteger(Lookup(d, "order")).UnwrapOr(idx))
  {
    match AsTable(Lookup(table, name))
    case Some(d) =>
      VariantInfo(name,
                  AsStr(Lookup(d, "polarity")).UnwrapOr("dark"),
                  WrapU32(AsInteger(Lookup(d, "order")).UnwrapOr(idx)))
    case None =>
      VariantInfo(name, InferPolarity(name), WrapU32(idx))
  }

  /** The theme a `[themes.<name>]` table describes. */
  function ThemeOf(name: string, table: seq<Entry>): (t: ThemeInfo)
    ensures t.name == name && t.scheme == SchemeOf(table)
    ensures |t.variants| == |VariantNames(table)|
    ensures forall i | 0 <= i < |t.variants| :: t.variants[i] == VariantOf(table, VariantNames(table)[i], i)
  {
    var names := VariantNames(table);
    ThemeInfo(name, SchemeOf(table), seq(|names|, i requires 0 <= i < |names| => VariantOf(table, names[i], i)))
  }

  /** The theme an entry of `[themes]` describes. */
  function EntryTheme(e: Entry): ThemeInfo
    requires e.value.Table?
  {
    ThemeOf(e.key, e.value.entries)
  }

  function ThemeNames(ts: seq<ThemeInfo>): seq<string> {
    seq(|ts|, i requires 0 <= i < |ts| => ts[i].name)
  }

  /** The themes of the `[themes]` entries, in table order: exactly the
      themes of the entries that describe one, each named after its entry, so
      the names follow the table's keys. */
  function CollectThemes(entries: seq<Entry>): (r: seq<ThemeInfo>)
    ensures |r| <= |entries|
    ensures ImageOf(r, entries, IsThemeEntry, EntryTheme)
    ensures Subsequence(ThemeNames(r), Keys(entries))
    decreases |entries|
  {
    if |entries| == 0 then []
    else
      var rest := CollectThemes(entries[1..]);
      var e := entries[0];
      var r := if IsThemeEntry(e) then [EntryTheme(e)] + rest else rest;
      FilterMapStep(entries, rest, IsThemeEntry, EntryTheme);
      var t := ThemeOf(e.key, if e.value.Table? then e.value.entries else []);
      NamesFollowKeys(entries, rest, IsThemeEntry(e), t);
      r
  }

  /** One step of CollectThemes keeps the names a subsequence of the keys,
      the theme put in front being named after the first entry. */
  lemma NamesFollowKeys(entries: seq<Entry>, rest: seq<ThemeInfo>, keep: bool, t: ThemeInfo)
    requires |entries| > 0 && t.name == entries[0].key
    requires Subsequence(ThemeNames(rest), Keys(entries[1..]))
    ensures Subsequence(ThemeNames(if keep then [t] + rest else rest), Keys(entries))
  {
    assert Keys(entries)[1..] == Keys(entries[1..]);
    if keep {
      var r := [t] + rest;
      assert ThemeNames(r) == [t.name] + ThemeNames(rest) by {
        forall k | 0 <= k < |r|
          ensures ThemeNames(r)[k] == ([t.name] + ThemeNames(rest))[k]
        {
          if k > 0 {
            assert r[k] == rest[k - 1];
          }
        }
      }
    }
    SubsequenceStep(ThemeNames(rest), Keys(entries), keep);
  }

  /** Byte-wise order on theme names, the comparison `themes.sort_by` uses. */
  predicate NameLe(a: ThemeInfo, b: ThemeInfo) {
    StrLe(a.name, b.name)
  }

  lemma NameLeIsTotalOrder()
    ensures Total(NameLe) && Transitive(NameLe)
  {
    forall a: ThemeInfo, b: ThemeInfo ensures NameLe(a, b) || NameLe(b, a) {
      StrLeTotal(a.name, b.name);
    }
    forall a: ThemeInfo, b: ThemeInfo, c: ThemeInfo | NameLe(a, b) && NameLe(b, c) ensures NameLe(a, c) {
      StrLeTransitive(a.name, b.name, c.name);
    }
  }

  /** `parse_themes_from_manifest`: the themes of the manifest's `[themes]`
      table, sorted by name. */
  function ParseThemesFromManifest(content: string, parse: string -> Decoded<Value>): (r: Result<seq<ThemeInfo>, Error>)
    ensures r.Err? <==> parse(content).Malformed?
    ensures r.Err? ==> r.error == TomlParse
    ensures r.Ok? && AsTable(Get(parse(content).value, "themes")).None? ==> r.value == []
    ensures r.Ok? ==> Sorted(r.value, NameLe)
    ensures r.Ok? ==> forall es: seq<Entry> | Get(parse(content).value, "themes") == Some(Table(es)) ::
              && |r.value| <= |es|
              && ImageOf(r.value, es, IsThemeEntry, EntryTheme)
              && (KeysDistinct(es) ==> forall i, j | 0 <= i < j < |r.value| :: r.value[i].name != r.value[j].name)
  {
    match parse(content)
    case Malformed => Err(TomlParse)
    case Decoded(manifest) =>
      var themes := match AsTable(Get(manifest, "themes"))
                    case Some(es) => CollectThemes(es)
                    case None => [];
      NameLeIsTotalOrder();
      SortBySorted(themes, NameLe);
      var sorted := SortBy(themes, NameLe);
      assert forall es | Get(manifest, "themes") == Some(Table(es)) ::
               && |sorted| <= |es|
               && ImageOf(sorted, es, IsThemeEntry, EntryTheme)
               && (KeysDistinct(es) ==> forall i, j | 0 <= i < j < |sorted| :: sorted[i].name != sorted[j].name) by {
        forall es | Get(manifest, "themes") == Some(Table(es))
          ensures && |sorted| <= |es|
                  && ImageOf(sorted, es, IsThemeEntry, EntryTheme)
                  && (KeysDistinct(es) ==> forall i, j | 0 <= i < j < |sorted| :: sorted[i].name != sorted[j].name)
        {
          assert themes == CollectThemes(es);
          SortedThemes(es, themes, sorted);
        }
      }
      Ok(sorted)
  }

  /** Sorting the collected themes keeps them exactly the themes of the
      table's theme entries, and keeps their names distinct when the table's
      keys are. */
  lemma SortedThemes(es: seq<Entry>, themes: seq<ThemeInfo>, sorted: seq<ThemeInfo>)
    requires |themes| <= |es|
    requires ImageOf(themes, es, IsThemeEntry, EntryTheme)
    requires Subsequence(ThemeNames(themes), Keys(es))
    requires multiset(themes) == multiset(sorted)
    ensures |sorted| <= |es|
    ensures ImageOf(sorted, es, IsThemeEntry, EntryTheme)
    ensures KeysDistinct(es) ==> forall i, j | 0 <= i < j < |sorted| :: sorted[i].name != sorted[j].name
  {
    assert |sorted| == |multiset(sorted)| == |multiset(themes)| == |themes|;
    ImageOfPermutation(themes, sorted, es, IsThemeEntry, EntryTheme);
    DistinctThemeNames(es, themes, sorted);
  }

  /** Themes collected from a table without repeated keys, in any order,
      have pairwise distinct names. */
  lemma DistinctThemeNames(es: seq<Entry>, themes: seq<ThemeInfo>, sorted: seq<ThemeInfo>)
    requires Subsequence(ThemeNames(themes), Keys(es))
    requires multiset(themes) == multiset(sorted)
    ensures KeysDistinct(es) ==> forall i, j | 0 <= i < j < |sorted| :: sorted[i].name != sorted[j].name
  {
    if KeysDistinct(es) {
      assert Distinct(Keys(es));
      SubsequenceDistinct(ThemeNames(themes), Keys(es));
      assert forall i, j | 0 <= i < j < |themes| :: themes[i].name != themes[j].name by {
        forall i, j | 0 <= i < j < |themes|
          ensures themes[i].name != themes[j].name
        {
          assert ThemeNames(themes)[i] == themes[i].name && ThemeNames(themes)[j] == themes[j].name;
        }
      }
      PermutationKeepsDistinctKeys(themes, sorted, (t: ThemeInfo) => t.name);
    }
  }

  /** The polarities the unit tests in src/theme/discovery.rs expect from names alone. */
  lemma InferPolarityExamples()
    ensures InferPolarity("dark") == "dark"
    ensures InferPolarity("light") == "light"
    ensures InferPolarity("latte") == "light"
    ensures InferPolarity("dawn") == "light"
    ensures InferPolarity("mocha") == "dark"
  {
    LowerOfLowercase("dark");
    LowerOfLowercase("light");
    LowerOfLowercase("latte");
    LowerOfLowercase("dawn");
    LowerOfLowercase("mocha");
    assert OccursAt("light", "light", 0);
    assert !Contains("dark", "light");
    ContainsMeansOccurs("mocha", "light");
    assert "mocha"[0..5][0] == 'm';
  }

  /** The theme table of the aikido unit test in src/theme/discovery.rs. */
  function AikidoTable(): seq<Entry> {
    [Entry("scheme", Str("vogix16")),
     Entry("variants", Array([Str("night"), Str("day")])),
     Entry("night", Table([Entry("polarity", Str("dark")), Entry("order", Int(1))])),
     Entry("day", Table([Entry("polarity", Str("light")), Entry("order", Int(0))]))]
  }

  /** Detail tables give each variant its polarity and order. */
  lemma VariantDetailsExampleNight()
    ensures VariantOf(AikidoTable(), "night", 0) == VariantInfo("night", "dark", 1)
  {
    var t := AikidoTable();
    var d := [Entry("polarity", Str("dark")), Entry("order", Int(1))];
    LookupFirst(t, 2, "night");
    assert Lookup(d, "polarity") == Some(Str("dark"));
    assert Lookup(d, "order") == Some(Int(1));
  }

  lemma VariantDetailsExampleDay()
    ensures VariantOf(AikidoTable(), "day", 1) == VariantInfo("day", "light", 0)
  {
    var t := AikidoTable();
    var d := [Entry("polarity", Str("light")), Entry("order", Int(0))];
    LookupFirst(t, 3, "day");
    assert Lookup(d, "polarity") == Some(Str("light"));
    assert Lookup(d, "order") == Some(Int(0));
  }
}
