/** Lookups over a discovered theme list (src/theme/query.rs). */
module Query {
  import opened Wrappers
  import opened Collections
  import opened Schemes
  import opened ThemeTypes

  /** `filter_by_scheme`: the themes of one scheme, in list order. */
  function FilterByScheme(themes: seq<ThemeInfo>, scheme: Scheme): (r: seq<ThemeInfo>)
    ensures forall t :: t in r <==> t in themes && t.scheme == scheme
    ensures Subsequence(r, themes)
    decreases |themes|
  {
    if |themes| == 0 then []
    else
      var rest := FilterByScheme(themes[1..], scheme);
      assert themes == [themes[0]] + themes[1..];
      if themes[0].scheme == scheme then
        [themes[0]] + rest
      else
        assert |rest| > 0 ==> rest[0] != themes[0];
        rest
  }

  /** Filtering a non-empty list handles its head, then filters the rest. */
  lemma FilterStep(themes: seq<ThemeInfo>, scheme: Scheme)
    requires |themes| > 0
    ensures multiset(FilterByScheme(themes, scheme))
            == (if themes[0].scheme == scheme then multiset{themes[0]} else multiset{})
               + multiset(FilterByScheme(themes[1..], scheme))
  {
  }

  /** Every theme has exactly one scheme, so the four filters split the list:
      together they hold each theme as often as the list does. */
  lemma {:induction false} FiltersPartition(themes: seq<ThemeInfo>)
    ensures multiset(FilterByScheme(themes, Ansi16)) + multiset(FilterByScheme(themes, Base16))
            + multiset(FilterByScheme(themes, Base24)) + multiset(FilterByScheme(themes, Vogix16))
            == multiset(themes)
  {
    if |themes| > 0 {
      var rest := themes[1..];
      FiltersPartition(rest);
      FilterStep(themes, Ansi16);
      FilterStep(themes, Base16);
      FilterStep(themes, Base24);
      FilterStep(themes, Vogix16);
      assert multiset(themes) == multiset{themes[0]} + multiset(rest) by {
        assert themes == [themes[0]] + rest;
      }
    }
  }

  /** `get_theme`: the first theme with exactly that name. */
  function GetTheme(themes: seq<ThemeInfo>, name: string): (r: Option<ThemeInfo>)
    ensures r.None? <==> forall i | 0 <= i < |themes| :: themes[i].name != name
    ensures r.Some? ==> r.value.name == name
    ensures r.Some? ==> exists i | 0 <= i < |themes| :: themes[i] == r.value
                          && forall j | 0 <= j < i :: themes[j].name != name
    decreases |themes|
  {
    if |themes| == 0 then None
    else if themes[0].name == name then Some(themes[0])
    else
      var r := GetTheme(themes[1..], name);
      assert r.Some? ==> exists i | 0 <= i < |themes[1..]| :: themes[1..][i] == r.value
                           && forall j | 0 <= j < i :: themes[1..][j].name != name;
      assert r.Some? ==> exists i | 1 <= i < |themes| :: themes[i] == r.value
                           && forall j | 0 <= j < i :: themes[j].name != name by {
        if r.Some? {
          var i :| 0 <= i < |themes[1..]| && themes[1..][i] == r.value
                   && forall j | 0 <= j < i :: themes[1..][j].name != name;
          assert forall j | 0 <= j < i + 1 :: themes[j].name != name by {
            forall j | 0 <= j < i + 1 ensures themes[j].name != name {
              if j > 0 {
                assert themes[j] == themes[1..][j - 1];
              }
            }
          }
        }
      }
      r
  }

  /** In a list with distinct names, every theme is found by its own name. */
  lemma GetThemeFindsEach(themes: seq<ThemeInfo>, i: int)
    requires forall p, q | 0 <= p < q < |themes| :: themes[p].name != themes[q].name
    requires 0 <= i < |themes|
    ensures GetTheme(themes, themes[i].name) == Some(themes[i])
  {
    var r := GetTheme(themes, themes[i].name);
    var k :| 0 <= k < |themes| && themes[k] == r.value && forall j | 0 <= j < k :: themes[j].name != themes[i].name;
  }

  /** The list the unit tests in src/theme/query.rs use. */
  function SampleThemes(): seq<ThemeInfo> {
    [ThemeInfo("aikido", Vogix16, [VariantInfo("night", "dark", 0)]),
     ThemeInfo("gruvbox", Base16, [VariantInfo("dark", "dark", 0)]),
     ThemeInfo("solarized", Base16, [VariantInfo("light", "light", 0), VariantInfo("dark", "dark", 1)])]
  }

  lemma QueryExamples()
    ensures FilterByScheme(SampleThemes(), Base16) == SampleThemes()[1..]
    ensures FilterByScheme(SampleThemes(), Vogix16) == SampleThemes()[..1]
    ensures FilterByScheme(SampleThemes(), Ansi16) == []
    ensures GetTheme(SampleThemes(), "gruvbox") == Some(SampleThemes()[1])
    ensures GetTheme(SampleThemes(), "nonexistent") == None
  {
    var s := SampleThemes();
    assert s[1..][1..] == s[2..];
  }
}
