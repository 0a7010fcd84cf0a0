/** Where rendered templates are cached and where theme files are found
    (src/cache/paths.rs). Paths are component sequences, so `join` appends. */
module CachePaths {
  import opened FileSystem
  import opened Schemes
  import opened Configs

  /** `variant_cache_path`: cache_dir/hash/scheme/theme/variant. */
  function VariantCachePath(cacheDir: Path, hash: string, scheme: Scheme, theme: string, variant: string): (r: Path)
    ensures |r| == |cacheDir| + 4
    ensures IsPrefix(cacheDir + [hash], r)
    ensures r[|cacheDir| + 1] == Name(scheme) && r[|cacheDir| + 2] == theme && r[|cacheDir| + 3] == variant
  {
    cacheDir + [hash] + [Name(scheme)] + [theme] + [variant]
  }

  /** Under one cache directory, different keys get different cache paths. */
  lemma VariantCachePathInjective(cacheDir: Path, h1: string, s1: Scheme, t1: string, v1: string,
                                  h2: string, s2: Scheme, t2: string, v2: string)
    requires VariantCachePath(cacheDir, h1, s1, t1, v1) == VariantCachePath(cacheDir, h2, s2, t2, v2)
    ensures h1 == h2 && s1 == s2 && t1 == t2 && v1 == v2
  {
    var p := VariantCachePath(cacheDir, h1, s1, t1, v1);
    assert p[|cacheDir|] == h1 && p[|cacheDir|] == h2;
    NameInjective(s1, s2);
  }

  /** `theme_source_path`: the configured directory of the scheme. */
  function ThemeSourcePath(sources: ThemeSourcesConfig, scheme: Scheme): (r: Path)
    ensures scheme == Vogix16 ==> r == sources.vogix16
    ensures scheme == Base16 ==> r == sources.base16
    ensures scheme == Base24 ==> r == sources.base24
    ensures scheme == Ansi16 ==> r == sources.ansi16
  {
    match scheme
    case Vogix16 => sources.vogix16
    case Base16 => sources.base16
    case Base24 => sources.base24
    case Ansi16 => sources.ansi16
  }

  /** The theme file extension: YAML for the base16 family, TOML otherwise. */
  function Extension(scheme: Scheme): (r: string)
    ensures r == "yaml" <==> scheme == Base16 || scheme == Base24
    ensures r == "toml" <==> scheme == Vogix16 || scheme == Ansi16
  {
    match scheme
    case Vogix16 | Ansi16 => "toml"
    case Base16 | Base24 => "yaml"
  }

  /** `theme_variant_path`: source_dir/theme/"{variant}.{extension}". */
  function ThemeVariantPath(sources: ThemeSourcesConfig, scheme: Scheme, theme: string, variant: string): (r: Path)
    ensures |r| == |ThemeSourcePath(sources, scheme)| + 2
    ensures IsPrefix(ThemeSourcePath(sources, scheme) + [theme], r)
    ensures r[|r| - 1] == variant + "." + Extension(scheme)
  {
    ThemeSourcePath(sources, scheme) + [theme] + [variant + "." + Extension(scheme)]
  }

  /** For one scheme, different theme/variant pairs name different files. */
  lemma ThemeVariantPathInjective(sources: ThemeSourcesConfig, scheme: Scheme,
                                  t1: string, v1: string, t2: string, v2: string)
    requires ThemeVariantPath(sources, scheme, t1, v1) == ThemeVariantPath(sources, scheme, t2, v2)
    ensures t1 == t2 && v1 == v2
  {
    var p := ThemeVariantPath(sources, scheme, t1, v1);
    var n := |ThemeSourcePath(sources, scheme)|;
    assert p[n] == t1 && p[n] == t2;
    var suffix := "." + Extension(scheme);
    assert p[n + 1] == v1 + "." + Extension(scheme) == v1 + suffix;
    assert p[n + 1] == v2 + "." + Extension(scheme) == v2 + suffix;
    assert |v1| == |v2|;
    assert v1 == (v1 + suffix)[..|v1|];
    assert v2 == (v2 + suffix)[..|v2|];
  }

  /** The paths the unit tests in src/cache/paths.rs check. */
  lemma PathExamples(sources: ThemeSourcesConfig)
    ensures VariantCachePath(["/cache"], "abc123", Vogix16, "aikido", "night")
            == ["/cache", "abc123", "vogix16", "aikido", "night"]
    ensures ThemeVariantPath(sources, Vogix16, "aikido", "night")
            == sources.vogix16 + ["aikido", "night.toml"]
    ensures ThemeVariantPath(sources, Base16, "dracula", "default")
            == sources.base16 + ["dracula", "default.yaml"]
  {
    assert "night" + "." + "toml" == "night.toml";
    assert "default" + "." + "yaml" == "default.yaml";
  }
}
