/** The system configuration (src/config/mod.rs, src/config/types.rs): the record
    the manifest is read into, its defaults, and the readers of the `[default]`,
    `[apps]`, `[templates]` and `[theme_sources]` sections of an already-parsed
    manifest. */
module Configs {
  import opened Wrappers
  import opened FileSystem
  import opened Errors
  import opened Toml

  datatype TemplatesConfig = TemplatesConfig(path: Path, hash: string)

  datatype ThemeSourcesConfig = ThemeSourcesConfig(vogix16: Path, base16: Path, base24: Path, ansi16: Path)

  datatype AppMetadata = AppMetadata(
    configPath: string,
    reloadMethod: string,
    reloadSignal: Option<string>,
    processName: Option<string>,
    reloadCommand: Option<string>)

  datatype Config = Config(
    defaultTheme: string,
    defaultVariant: string,
    apps: map<string, AppMetadata>,
    templates: Option<TemplatesConfig>,
    themeSources: Option<ThemeSourcesConfig>)

  const FallbackTheme: string := "aikido"
  const FallbackVariant: string := "dark"

  /** `Config::default`. */
  function DefaultConfig(): Config {
    Config.Config(FallbackTheme, FallbackVariant, map[], None, None)
  }

  /** `PathBuf::from(s)`: the manifest's path string as one opaque component. */
  function PathFrom(s: string): Path {
    [s]
  }

  /** The string stored at `section.key` of the manifest, when there is one. */
  function StrAt(manifest: Value, section: string, key: string): Option<string> {
    AsStr(GetIn(Get(manifest, section), key))
  }

  /** The `[default]` theme or variant: the string stored there, else the
      fallback. */
  function DefaultField(manifest: Value, key: string, fallback: string): (r: string)
    ensures StrAt(manifest, "default", key).Some? ==> r == StrAt(manifest, "default", key).value
    ensures StrAt(manifest, "default", key).None? ==> r == fallback
  {
    AsStr(GetIn(Get(manifest, "default"), key)).UnwrapOr(fallback)
  }

  /** `parse_templates`: a `[templates]` table with a string `path` and a string
      `hash`, or nothing. */
  function ParseTemplates(manifest: Value): (r: Option<TemplatesConfig>)
    ensures r.Some? <==> StrAt(manifest, "templates", "path").Some? && StrAt(manifest, "templates", "hash").Some?
    ensures r.Some? ==> r.value.path == PathFrom(StrAt(manifest, "templates", "path").value)
    ensures r.Some? ==> r.value.hash == StrAt(manifest, "templates", "hash").value
  {
    var t :- AsTable(Get(manifest, "templates"));
    var path :- AsStr(Lookup(t, "path"));
    var hash :- AsStr(Lookup(t, "hash"));
    Some(TemplatesConfig(PathFrom(path), hash))
  }

  /** `parse_theme_sources`: a `[theme_sources]` table with all four scheme
      directories as strings, or nothing. */
  function ParseThemeSources(manifest: Value): (r: Option<ThemeSourcesConfig>)
    ensures r.Some? <==>
              && StrAt(manifest, "theme_sources", "vogix16").Some?
              && StrAt(manifest, "theme_sources", "base16").Some?
              && StrAt(manifest, "theme_sources", "base24").Some?
              && StrAt(manifest, "theme_sources", "ansi16").Some?
    ensures r.Some? ==>
              && r.value.vogix16 == PathFrom(StrAt(manifest, "theme_sources", "vogix16").value)
              && r.value.base16 == PathFrom(StrAt(manifest, "theme_sources", "base16").value)
              && r.value.base24 == PathFrom(StrAt(manifest, "theme_sources", "base24").value)
              && r.value.ansi16 == PathFrom(StrAt(manifest, "theme_sources", "ansi16").value)
  {
    var t :- AsTable(Get(manifest, "theme_sources"));
    var vogix16 :- AsStr(Lookup(t, "vogix16"));
    var base16 :- AsStr(Lookup(t, "base16"));
    var base24 :- AsStr(Lookup(t, "base24"));
    var ansi16 :- AsStr(Lookup(t, "ansi16"));
    Some(ThemeSourcesConfig(PathFrom(vogix16), PathFrom(base16), PathFrom(base24), PathFrom(ansi16)))
  }

  /** The `filter_map` closure of `parse_apps`: an app needs string
      `config_path` and `reload_method`; each optional field is kept only when
      it is a string. */
  function AppOf(data: Value): (r: Option<AppMetadata>)
    ensures r.Some? <==> AsStr(Get(data, "config_path")).Some? && AsStr(Get(data, "reload_method")).Some?
    ensures r.Some? ==>
              && r.value.configPath == AsStr(Get(data, "config_path")).value
              && r.value.reloadMethod == AsStr(Get(data, "reload_method")).value
    ensures r.Some? ==>
              && r.value.reloadSignal == AsStr(Get(data, "reload_signal"))
              && r.value.processName == AsStr(Get(data, "process_name"))
              && r.value.reloadCommand == AsStr(Get(data, "reload_command"))
  {
    var configPath :- AsStr(Get(data, "config_path"));
    var reloadMethod :- AsStr(Get(data, "reload_method"));
    Some(AppMetadata(configPath, reloadMethod,
                     AsStr(Get(data, "reload_signal")),
                     AsStr(Get(data, "process_name")),
                     AsStr(Get(data, "reload_command"))))
  }

  /** The names of the entries that make a valid app. */
  function ValidAppNames(es: seq<Entry>): set<string> {
    set e | e in es && AppOf(e.value).Some? :: e.key
  }

  /** `.collect()` of the valid apps into a map, entries visited in order so a
      later entry under the same name would win. */
  function CollectApps(es: seq<Entry>): (r: map<string, AppMetadata>)
    ensures r.Keys == ValidAppNames(es)
    ensures KeysDistinct(es) ==>
              forall i | 0 <= i < |es| && AppOf(es[i].value).Some? :: r[es[i].key] == AppOf(es[i].value).value
    decreases |es|
  {
    if |es| == 0 then map[]
    else
      var init := es[..|es| - 1];
      var last := es[|es| - 1];
      assert es == init + [last];
      assert KeysDistinct(es) ==> KeysDistinct(init) && forall i | 0 <= i < |init| :: init[i].key != last.key;
      var m := CollectApps(init);
      match AppOf(last.value)
      case Some(app) => m[last.key := app]
      case None => m
  }

  /** `parse_apps`: the valid apps of the `[apps]` table, or no apps at all when
      there is no such table. */
  function ParseApps(manifest: Value): (r: map<string, AppMetadata>)
    ensures AsTable(Get(manifest, "apps")).None? ==> r == map[]
    ensures AsTable(Get(manifest, "apps")).Some? ==> r.Keys == ValidAppNames(AsTable(Get(manifest, "apps")).value)
  {
    match AsTable(Get(manifest, "apps"))
    case None => map[]
    case Some(es) => CollectApps(es)
  }

  /** The manifest file as it is found: absent, unreadable (a directory in its
      place), or present with a text the TOML parser turns into a value. */
  function LoadConfig(fs: Fs, manifestPath: Path, parse: string -> Decoded<Value>): (r: Result<Config, Error>)
    ensures manifestPath !in fs ==> r == Ok(DefaultConfig())
    ensures manifestPath in fs && fs[manifestPath].Dir? ==> r == Err(Io)
    ensures manifestPath in fs && fs[manifestPath].File? ==>
              (r.Err? <==> parse(fs[manifestPath].content).Malformed?)
    ensures r.Err? ==> r.error == Io || r.error == TomlParse
    ensures r.Ok? && manifestPath in fs ==>
              var manifest := parse(fs[manifestPath].content).value;
              && r.value.templates == ParseTemplates(manifest)
              && r.value.themeSources == ParseThemeSources(manifest)
              && r.value.apps == ParseApps(manifest)
              && (StrAt(manifest, "default", "theme").Some? ==>
                    r.value.defaultTheme == StrAt(manifest, "default", "theme").value)
              && (StrAt(manifest, "default", "theme").None? ==> r.value.defaultTheme == FallbackTheme)
              && (StrAt(manifest, "default", "variant").Some? ==>
                    r.value.defaultVariant == StrAt(manifest, "default", "variant").value)
              && (StrAt(manifest, "default", "variant").None? ==> r.value.defaultVariant == FallbackVariant)
  {
    if manifestPath !in fs then Ok(DefaultConfig())
    else
      var contents :- match ReadToString(fs, manifestPath)
                      case None => Err(Io)
                      case Some(c) => Ok(c);
      match parse(contents)
      case Malformed => Err(TomlParse)
      case Decoded(manifest) =>
        Ok(Config.Config(
          DefaultField(manifest, "theme", FallbackTheme),
          DefaultField(manifest, "variant", FallbackVariant),
          ParseApps(manifest),
          ParseTemplates(manifest),
          ParseThemeSources(manifest)))
  }

  /** A manifest with no sections configures exactly what a missing manifest
      does. */
  lemma EmptyManifestIsDefault(fs: Fs, manifestPath: Path, parse: string -> Decoded<Value>)
    requires manifestPath in fs && fs[manifestPath].File?
    requires parse(fs[manifestPath].content) == Decoded(Table([]))
    ensures LoadConfig(fs, manifestPath, parse) == LoadConfig(fs - {manifestPath}, manifestPath, parse)
  {
  }

  /** In a well-formed `[apps]` table each valid app is kept under its name
      with exactly the fields its entry gives. */
  lemma ParseAppsKeepsEntries(manifest: Value, i: int)
    requires AsTable(Get(manifest, "apps")).Some?
    requires KeysDistinct(AsTable(Get(manifest, "apps")).value)
    requires 0 <= i < |AsTable(Get(manifest, "apps")).value|
    requires AppOf(AsTable(Get(manifest, "apps")).value[i].value).Some?
    ensures var e := AsTable(Get(manifest, "apps")).value[i];
            && e.key in ParseApps(manifest)
            && ParseApps(manifest)[e.key] == AppOf(e.value).value
  {
    var es := AsTable(Get(manifest, "apps")).value;
    assert es[i] in es;
  }
}
