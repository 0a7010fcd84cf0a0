/** Turning a requested variant into a variant name of a theme
    (`resolve_variant` in src/commands/theme_change.rs). The theme list comes
    from discovery, which reads the manifest; it is passed in as
    `discovered`. */
module ThemeChange {
  import opened Wrappers
  import opened Text
  import opened Errors
  import opened ThemeTypes
  import opened Query

  /** The request asks for a polarity rather than a name. */
  predicate IsPolarityRequest(requested: string) {
    Lower(requested) == "dark" || Lower(requested) == "light"
  }

  /** `resolve_variant`: a variant named like the request (ignoring case)
      wins; a theme with one variant always gives that one; "dark" and
      "light" pick the first variant of that polarity; anything else is an
      error. */
  function ResolveVariant(discovered: Result<seq<ThemeInfo>, Error>, themeName: string, requested: string)
    : (r: Result<string, Error>)
    ensures discovered.Err? ==> r == Err(discovered.error)
    ensures discovered.Ok? ==>
              (r == Err(InvalidTheme(ThemeMissing(themeName))) <==> GetTheme(discovered.value, themeName).None?)
    ensures discovered.Ok? && r.Ok? ==>
              exists v | v in GetTheme(discovered.value, themeName).value.variants :: v.name == r.value
    ensures discovered.Ok? && GetTheme(discovered.value, themeName).Some? ==>
              var vs := GetTheme(discovered.value, themeName).value.variants;
              var i := Position(vs, requested);
              && (i >= 0 ==> r == Ok(vs[i].name))
              && (i < 0 && |vs| == 1 ==> r == Ok(vs[0].name))
              && (i < 0 && |vs| != 1 && IsPolarityRequest(requested) ==>
                    && (r.Ok? <==> exists j | 0 <= j < |vs| :: vs[j].polarity == Lower(requested))
                    && (r.Ok? ==> r.value == vs[PolarityPosition(vs, Lower(requested))].name)
                    && (r.Err? ==> r.error == InvalidTheme(NoPolarityVariant(themeName, requested))))
              && (i < 0 && |vs| != 1 && !IsPolarityRequest(requested) ==>
                    r == Err(InvalidTheme(UnknownVariant(requested, themeName))))
  {
    match discovered
    case Err(e) => Err(e)
    case Ok(themes) =>
      match GetTheme(themes, themeName)
      case None => Err(InvalidTheme(ThemeMissing(themeName)))
      case Some(t) =>
        var requestedLower := Lower(requested);
        var i := Position(t.variants, requested);
        if i >= 0 then Ok(t.variants[i].name)
        else if |t.variants| == 1 then Ok(t.variants[0].name)
        else if requestedLower == "dark" || requestedLower == "light" then
          var d := DefaultVariantForPolarity(t, requestedLower);
          if d.Some? && d.value.polarity == requestedLower then Ok(d.value.name)
          else Err(InvalidTheme(NoPolarityVariant(themeName, requested)))
        else Err(InvalidTheme(UnknownVariant(requested, themeName)))
  }

  /** With case-insensitively distinct variant names, resolving the name a
      resolution produced gives that same name back. */
  lemma ResolveVariantIdempotent(discovered: Result<seq<ThemeInfo>, Error>, themeName: string, requested: string)
    requires discovered.Ok?
    requires ResolveVariant(discovered, themeName, requested).Ok?
    requires NamesDistinctIgnoringCase(GetTheme(discovered.value, themeName).value.variants)
    ensures var n := ResolveVariant(discovered, themeName, requested).value;
            ResolveVariant(discovered, themeName, n) == Ok(n)
  {
    var vs := GetTheme(discovered.value, themeName).value.variants;
    var n := ResolveVariant(discovered, themeName, requested).value;
    var k :| 0 <= k < |vs| && vs[k].name == n;
    assert forall p, q | 0 <= p < q < |vs| :: LowerName(vs[p]) != LowerName(vs[q]);
    PositionOfOwnName(vs, k);
  }

  /** A theme with light and dark variants, one of each. */
  function Solarized(): ThemeInfo {
    ThemeInfo("solarized", Schemes.Base16,
              [VariantInfo("light", "light", 0), VariantInfo("dark", "dark", 1)])
  }

  lemma ResolveVariantExamples()
    ensures ResolveVariant(Ok([Solarized()]), "solarized", "DARK") == Ok("dark")
    ensures ResolveVariant(Ok([Solarized()]), "solarized", "dusk")
              == Err(InvalidTheme(UnknownVariant("dusk", "solarized")))
    ensures ResolveVariant(Ok([Solarized()]), "nord", "dark")
              == Err(InvalidTheme(ThemeMissing("nord")))
  {
    LowerOfLowercase("dark");
    LowerOfLowercase("light");
    LowerOfLowercase("dusk");
    assert Lower("DARK") == "dark";
    assert "solarized" != "nord";
  }

  function Catppuccin(): ThemeInfo {
    ThemeInfo("catppuccin", Schemes.Base24, [VariantInfo("mocha", "dark", 0), VariantInfo("frappe", "dark", 1)])
  }

  /** A polarity request picks the first variant of that polarity, and fails
      when the theme has none. */
  lemma ResolvePolarityExamples()
    ensures ResolveVariant(Ok([Catppuccin()]), "catppuccin", "Dark") == Ok("mocha")
    ensures ResolveVariant(Ok([Catppuccin()]), "catppuccin", "light")
              == Err(InvalidTheme(NoPolarityVariant("catppuccin", "light")))
  {
    ResolveDarkPolarity();
    ResolveMissingPolarity();
  }

  lemma ResolveDarkPolarity()
    ensures ResolveVariant(Ok([Catppuccin()]), "catppuccin", "Dark") == Ok("mocha")
  {
    LowerOfLowercase("mocha");
    LowerOfLowercase("frappe");
    assert Lower("Dark") == "dark";
  }

  lemma ResolveMissingPolarity()
    ensures ResolveVariant(Ok([Catppuccin()]), "catppuccin", "light")
              == Err(InvalidTheme(NoPolarityVariant("catppuccin", "light")))
  {
    LowerOfLowercase("mocha");
    LowerOfLowercase("frappe");
    LowerOfLowercase("light");
  }

  /** A theme with a single variant gives it for any request. */
  lemma ResolveSingleVariantExample()
    ensures ResolveVariant(Ok([ThemeInfo("nord", Schemes.Base16, [VariantInfo("dark", "dark", 0)])]), "nord", "light")
            == Ok("dark")
  {
    LowerOfLowercase("dark");
    LowerOfLowercase("light");
  }
}
