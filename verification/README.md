# vogix16 core, modelled in Dafny

vogix16 is a theme manager. It reads palette files in four schemes (vogix16, base16, base24 and ansi16) and flattens each into a map from colour names to colour strings. It renders `*.vogix` templates with that map into a per-variant cache directory. It also keeps a list of themes and their light and dark variants, which a user can step through. This project models that core as pure Dafny functions and as methods over an explicit filesystem, and proves the properties the code and its tests promise.

Layout, one module per source component:

- `wrappers.dfy` (Option/Result), `text.dfy` (ASCII lowercasing, substring search, byte-wise string order), `collections.dfy`, `sorting.dfy` (a stable insertion sort standing for `sort_by_key`): shared helpers.
- `filesystem.dfy`: the filesystem as `map<Path, Node>`, where a path is a sequence of components and a node is a directory or a file with its content.
- `errors.dfy`: `VogixError`. The free-text messages of `Config` and `InvalidTheme` errors become tagged reasons.
- `toml.dfy`: an already-parsed TOML value. A table is its entries in iteration order.
- `schemes.dfy`, `colormaps.dfy`, `loader_vogix16.dfy`, `loader_base16.dfy`, `loader_ansi16.dfy`, `loader.dfy`: scheme names and palette normalisation.
- `filters.dfy`: the `hex_to_rgb` and `strip_hash` template filters.
- `configs.dfy`: the config defaults and the `parse_*` helpers.
- `cache_paths.dfy`, `cache_renderer.dfy`, `cache.dfy`: cache layout, rendering into the cache, and the cache-through policy.
- `theme_types.dfy`, `discovery.dfy`, `query.dfy`, `theme_change.dfy`: theme metadata and variant selection.

Foreign components become parameters. The TOML and YAML deserialisers are functions `string -> Decoded<T>`, where `Malformed` stands for any deserialisation failure. The Tera template engine is a function `(template text, colours) -> Result<string, string>`. Directory listings are visited in an arbitrary order, and every contract holds for every order.

## Model

| member | source | states |
|---|---|---|
| Schemes.Name | src/scheme.rs:27-36 | each scheme prints as its lower-case name; the names are what `Parse` accepts back |
| Schemes.DefaultScheme | src/scheme.rs:22-24 | the default scheme is the one named "vogix16" |
| Schemes.Parse | src/scheme.rs:41-51 | parsing succeeds exactly when the lowercased input is one of the four names, and yields the scheme with that name; otherwise the error text names the input and lists the valid schemes |
| Schemes.NameInjective | src/scheme.rs:29-34 | distinct schemes print distinct names |
| Schemes.ParseName | src/scheme.rs:28-51 | round trip: parsing a printed name gives the scheme back |
| Schemes.ParseIgnoresCase | src/scheme.rs:42 | a string parses exactly when its lowercase form does, to the same scheme |
| Schemes.ParseExamples | src/scheme.rs:78-84 | "vogix16", "BASE16", "Base24" and "ANSI16" parse; "invalid" does not |
| KeyTables.MappingTableShape | src/theme/loader/vogix16.rs:27-46 | the alias table has 16 rows; its base keys are exactly base00..base0F in order; its alias names are distinct from each other and from the base keys |
| Vogix16Loader.InsertAliases | src/theme/loader/vogix16.rs:58-62 | the loop adds exactly the aliases whose base key is present; each gets its base colour; every other key keeps its value |
| Vogix16Loader.Load | src/theme/loader/vogix16.rs:51-65 | malformed input is a TOML parse error; otherwise the keys are the raw keys plus the present aliases; raw entries keep their value unless an alias overwrites them; each present alias carries its base colour |
| Vogix16Loader.AbsentBaseAddsNoAlias | src/theme/loader/vogix16.rs:59 | an alias whose base key is missing is not added |
| Vogix16Loader.AliasesCoverNames | src/theme/loader/vogix16.rs:58-62 | when every base key is present, the aliases added are exactly the table's names |
| Vogix16Loader.FullPaletteHas32Keys | src/theme/loader/vogix16.rs:27-62 | a `colors` table holding exactly base00..base0F loads to exactly 32 keys |
| Vogix16Loader.ConcreteAliases | src/theme/loader/tests.rs:49-52 | base00, base05, base08 and base0B are aliased as background, foreground_text, success and danger |
| Base16Loader.Load | src/theme/loader/base16_24.rs:35-39 | malformed input is a YAML parse error; otherwise the result has exactly the palette's keys and values |
| Ansi16Loader.PutAll | src/theme/loader/ansi16.rs:110-147 | inserting a list of optional slots adds exactly the keys of the present slots and keeps other entries; with distinct slot keys each key gets its slot's value |
| Ansi16Loader.SlotsShape | src/theme/loader/ansi16.rs:98-103 | the slots of any file are, in order, the 22 fixed names, and these names are distinct |
| Ansi16Loader.Load | src/theme/loader/ansi16.rs:104-150 | malformed input is a TOML parse error; otherwise the keys are exactly the names of the fields that are present, and each has its field's value verbatim |
| Ansi16Loader.KeysAmongAnsiKeys | src/theme/loader/ansi16.rs:98-103 | every output key is one of the 22 fixed names |
| Ansi16Loader.CompleteFileHas22Keys | src/theme/loader/ansi16.rs:211-266 | a file with every field present yields exactly the 22 names |
| Ansi16Loader.AbsentSlotAbsentKey | src/theme/loader/ansi16.rs:110-147 | a missing field omits just its key, with no default value |
| Ansi16Loader.MissingNormalSection | src/theme/loader/ansi16.rs:269-289 | a file without a `normal` section yields none of color00..color07 |
| Ansi16Loader.SlotPositions | src/theme/loader/ansi16.rs:110-204 | background, foreground, normal black and bright black sit at slots 0, 1, 6 and 14 |
| Ansi16Loader.ConcreteMappings | src/theme/loader/ansi16.rs:110-204 | primary.background becomes `background`; normal black becomes color00; bright black becomes color08 |
| ThemeLoader.Dispatch | src/theme/loader/mod.rs:31-35 | a scheme's content loads exactly when that scheme's parser accepts it; a failure is a YAML error for base16/base24 and a TOML error otherwise |
| ThemeLoader.LoadThemeColors | src/theme/loader/mod.rs:23-36 | an unreadable file is ConfigNotFound(path), whatever the scheme; otherwise the result succeeds exactly when the scheme's parser accepts the content, and the parser's error kind is passed through |
| ThemeLoader.Base16AndBase24Agree | src/theme/loader/mod.rs:33 | base16 and base24 load any file identically |
| Filters.TrimHashes | src/template/filters.rs:21 | the result is a suffix of the input; every removed character is '#'; the result does not start with '#' |
| Filters.TrimHashesUnique | src/template/filters.rs:21 | any '#'-free suffix reached by removing only '#' is the trimmed string |
| Filters.StripHash | src/template/filters.rs:44-50 | a non-string is an error with the type message; a string loses all its leading '#' and nothing else |
| Filters.HexToRgb | src/template/filters.rs:16-34 | a non-string is a type error; a string succeeds exactly when what is left after trimming '#' has length 6; otherwise the error text ends with the input; on success the output is "0x"+c[0..2]+",0x"+c[2..4]+",0x"+c[4..6] |
| Filters.StripHashIdempotent | src/template/filters.rs:49 | stripping twice equals stripping once |
| Filters.StripHashWithoutHash | src/template/filters.rs:85-89 | a string that does not start with '#' is unchanged |
| Filters.HexToRgbIgnoresStripHash | src/template/filters.rs:21-33 | converting a stripped string gives the same outcome as converting the original |
| Filters.HexToRgbUppercase | src/template/filters.rs:57-61 | "#FF5733" gives "0xFF,0x57,0x33"; case is kept |
| Filters.HexToRgbLowercase | src/template/filters.rs:64-68 | "#abcdef" gives "0xab,0xcd,0xef" |
| Filters.HexToRgbShort | src/template/filters.rs:71-75 | "#FFF" is a length error |
| Filters.StripHashExamples | src/template/filters.rs:78-89 | "#1e90ff" becomes "1e90ff"; "1e90ff" stays |
| Configs.DefaultField | src/config/mod.rs:63-75 | `[default].theme` or `variant` is used when it is a string; otherwise the fallback applies |
| Configs.ParseTemplates | src/config/mod.rs:136-148 | Some exactly when `[templates]` has string `path` and `hash`, which it then carries |
| Configs.ParseThemeSources | src/config/mod.rs:151-167 | Some exactly when all four scheme keys are strings, which it then carries |
| Configs.AppOf | src/config/mod.rs:103-128 | an app is kept exactly when `config_path` and `reload_method` are strings; each optional field is its string or None |
| Configs.CollectApps | src/config/mod.rs:100-131 | the keys are exactly the names of the valid apps; with distinct names each maps to its own entry |
| Configs.ParseApps | src/config/mod.rs:96-133 | no `[apps]` table gives the empty map; otherwise the keys are the valid app names |
| Configs.LoadConfig | src/config/mod.rs:51-93 | a missing manifest gives the default config (aikido, dark, no apps, no templates, no sources); an unreadable one is an I/O error; a malformed one is a TOML error; otherwise templates, theme sources and apps come from their parsers, and the default theme and variant are the `[default]` strings when present and aikido/dark when not |
| Configs.EmptyManifestIsDefault | src/config/mod.rs:37-47 | an empty manifest loads to the same config as a missing one |
| Configs.ParseAppsKeepsEntries | src/config/mod.rs:96-133 | in a well-formed `[apps]` table each valid app is kept under its name with its own fields |
| CachePaths.VariantCachePath | src/cache/paths.rs:30-42 | the path is cache_dir/hash/scheme-name/theme/variant, so it lies under cache_dir/hash |
| CachePaths.VariantCachePathInjective | src/cache/paths.rs:37-41 | different keys under one cache directory give different paths |
| CachePaths.ThemeSourcePath | src/cache/paths.rs:45-55 | each scheme selects its own configured source directory |
| CachePaths.Extension | src/cache/paths.rs:68-71 | the extension is "yaml" exactly for base16/base24 and "toml" exactly for vogix16/ansi16 |
| CachePaths.ThemeVariantPath | src/cache/paths.rs:61-75 | the path is source/theme/"variant.ext" |
| CachePaths.ThemeVariantPathInjective | src/cache/paths.rs:72-74 | for one scheme, distinct theme/variant pairs give distinct files |
| CachePaths.PathExamples | src/cache/paths.rs:86-132 | the paths the unit tests in paths.rs build |
| CacheRenderer.LastDot | src/cache/renderer.rs:62 | the last '.' of a file name, or -1; no '.' follows it |
| CacheRenderer.VogixExtension | src/cache/renderer.rs:62 | a name has extension "vogix" exactly when it is longer than ".vogix" and ends with it; its stem is then the name without ".vogix" |
| CacheRenderer.RenderTemplate | src/cache/renderer.rs:86 | an unreadable template is ConfigNotFound; an engine failure becomes a Template error with the engine's message; success is the engine's output |
| CacheRenderer.RenderTemplateFile | src/cache/renderer.rs:71-97 | on success only cache_path/stem changes, and it holds the rendered text; a failure changes nothing |
| CacheRenderer.RenderTemplates | src/cache/renderer.rs:57-65 | only files directly under the cache directory change and no directory appears or goes; each one changed holds the rendering of the template it is named after; in whatever order the entries are visited, the loop succeeds exactly when every `*.vogix` template renders and its output can be written, and a failure is the error of one such template; on success every template has been rendered |
| CacheRenderer.RenderFileAsBefore | src/cache/renderer.rs:58-65 | earlier iterations change neither a template nor a directory, so each template renders and writes as it would have at the start of the loop, with the same error |
| CacheRenderer.RenderToCache | src/cache/renderer.rs:28-68 | the cache directory is created first and exists afterwards, even on failure; a colour-load error or a missing templates/{scheme} directory stops before any template is read or written; outputs only land in the cache directory; once the directory exists it succeeds exactly when the palette loads, the templates directory is a directory and every template in it renders and can be written, and otherwise returns the palette error, the missing-directory error, or the error of one of the templates |
| CacheRenderer.RenderWithPalette | src/cache/renderer.rs:46-67 | a palette load error, a missing templates directory or one that is a plain file ends the call with no change; success needs a palette and a templates directory; only direct children of the cache directory change, each changed one holding its template's rendering, and on success every `.vogix` template has an output; with an existing templates directory it succeeds exactly when every template renders and can be written, failing otherwise with one template's error |
| ThemeCaches.FromConfigWithCacheDir | src/cache/mod.rs:43-58 | construction succeeds exactly when both `templates` and `theme_sources` are present; otherwise it is the matching Config error |
| ThemeCaches.CachePathOf | src/cache/mod.rs:62-70 | the key's path is four components below the cache directory: the current templates hash, then scheme name, theme and variant |
| ThemeCaches.IsCached | src/cache/mod.rs:72-76 | a key is cached exactly when its cache path exists and is a directory |
| ThemeCaches.OtherKeysStayCached | src/cache/mod.rs:72-100 | rendering one key does not change whether any other key of the same cache is cached |
| ThemeCaches.CleanKeepsCached | src/cache/mod.rs:108-136 | a key of the current templates hash that is cached before `clean_stale` is cached after it |
| ThemeCaches.RenderVariant | src/cache/mod.rs:80-100 | a hit returns the path and leaves the filesystem unchanged; a miss whose directory cannot be created is an I/O error with no change; otherwise the miss does what `render_to_cache` does for the key's path: it succeeds, returning the path, exactly when the palette loads, the templates directory exists and every template renders and can be written, and it returns the render's own error otherwise; the key is reported as cached afterwards even if rendering failed; only the path, its ancestors and its direct children change |
| ThemeCaches.RenderMiss | src/cache/mod.rs:89-99 | the miss branch: `render_to_cache` into the key's path with its full success condition, then the path on success or the render's error |
| ThemeCaches.GetOrRender | src/cache/mod.rs:103-105 | every promise of `render_variant`: the hit, the I/O error, the render outcome of a miss, the cached key afterwards and the frame |
| ThemeCaches.CleanStale | src/cache/mod.rs:111-136 | a missing cache directory gives 0 and no change; otherwise it removes exactly the subdirectories not named after the current hash, with everything under them, and returns how many |
| ThemeCaches.CleanStaleKeeps | src/cache/mod.rs:122-131 | plain files and the current-hash directory are never removed |
| ThemeTypes.VariantsByOrder | src/theme/types.rs:24-28 | a permutation of the variants, sorted non-decreasing by `order` |
| ThemeTypes.VariantsByOrderStable | src/theme/types.rs:27 | variants with equal `order` keep their original relative order |
| ThemeTypes.Position | src/theme/types.rs:45-50 | the first position whose name equals the request ignoring case, or -1 when none does |
| ThemeTypes.DefaultVariantForPolarity | src/theme/types.rs:32-37 | the first variant of the polarity, else the first variant; None only when there are no variants |
| ThemeTypes.Navigate | src/theme/types.rs:41-76 | unknown variant iff no name matches ignoring case; "darker" gives the successor in order and errors at the end; "lighter" gives the predecessor and errors at the start; the direction is case-insensitive and any other one errors; a result is always one of the variants' names |
| ThemeTypes.DarkerThenLighter | src/theme/types.rs:167-210 | with case-insensitively distinct names, a successful step darker followed by lighter returns to the start |
| ThemeTypes.LighterThenDarker | src/theme/types.rs:167-210 | the same for lighter followed by darker |
| ThemeTypes.NavigateRosePine | src/theme/types.rs:167-210 | dawn→moon→base going darker, and back going lighter |
| ThemeTypes.NavigateRosePineEnds | src/theme/types.rs:141-164 | the darkest variant cannot go darker, nor the lightest lighter |
| ThemeTypes.VariantsByOrderExample | src/theme/types.rs:213-241 | base(2), dawn(0), moon(1) sort to dawn, moon, base |
| Discovery.SchemeOf | src/theme/discovery.rs:40-44 | a string that names a scheme in any case selects it; a missing, non-string or unknown value gives vogix16 |
| Discovery.StringItems | src/theme/discovery.rs:49-53 | the strings of the array in their original order, each as often as it occurs there; every non-string element is dropped |
| Discovery.StringItemsOfStrings | src/theme/discovery.rs:49-53 | an all-string array gives back its strings in order |
| Discovery.VariantNames | src/theme/discovery.rs:46-54 | the strings of the `variants` array in order and with their multiplicity, or ["dark","light"] when it is not an array |
| Discovery.InferPolarity | src/theme/discovery.rs:74-81 | "light" exactly when the lowercased name contains "light" or is "dawn" or "latte"; "dark" otherwise |
| Discovery.InferPolarityIgnoresCase | src/theme/discovery.rs:74-76 | case does not change the inferred polarity |
| Discovery.WrapU32 | src/theme/discovery.rs:70 | the cast keeps in-range values and otherwise is congruent mod 2^32 |
| Discovery.VariantOf | src/theme/discovery.rs:58-89 | with a detail table, polarity defaults to "dark" and order to the index; without one, polarity is inferred and order is the index |
| Discovery.ThemeOf | src/theme/discovery.rs:40-96 | the theme keeps its name and scheme, and has one variant per name, built at its index |
| Discovery.CollectThemes | src/theme/discovery.rs:32-38 | a theme is produced exactly for each entry that is a table holding `variants`, and the theme names follow the table's keys in order |
| Discovery.ParseThemesFromManifest | src/theme/discovery.rs:26-103 | malformed TOML is a TOML error; no `themes` table gives []; otherwise exactly the themes of the qualifying entries, sorted by name; when the table's keys are distinct (as TOML requires) no theme name repeats |
| Discovery.SortedThemes | src/theme/discovery.rs:99-100 | sorting the collected themes keeps exactly the themes of the qualifying entries, and keeps their names distinct when the table's keys are |
| Discovery.DistinctThemeNames | src/theme/discovery.rs:31-38 | themes collected from a table without repeated keys, in any order, have pairwise distinct names |
| Discovery.InferPolarityExamples | src/theme/discovery.rs:139-177 | dark→dark, light→light, latte→light, dawn→light, mocha→dark |
| Discovery.VariantDetailsExampleNight | src/theme/discovery.rs:115-137 | `night = { polarity = "dark", order = 1 }` gives night/dark/1 |
| Discovery.VariantDetailsExampleDay | src/theme/discovery.rs:115-137 | `day = { polarity = "light", order = 0 }` gives day/light/0 |
| Query.FilterByScheme | src/theme/query.rs:8-14 | exactly the themes of that scheme, as a subsequence of the input |
| Query.FiltersPartition | src/theme/query.rs:8-14 | the four scheme filters together hold each theme exactly as often as the input |
| Query.GetTheme | src/theme/query.rs:17-19 | the first theme with exactly that name; None iff no theme has it |
| Query.GetThemeFindsEach | src/theme/query.rs:17-19 | with distinct names, every theme is found by its name |
| Query.QueryExamples | src/theme/query.rs:66-91 | the filter and lookup unit tests of query.rs |
| ThemeChange.ResolveVariant | src/commands/theme_change.rs:142-197 | an unknown theme is an error; a case-insensitive name match comes first and returns the stored spelling; a single-variant theme returns its variant; "dark"/"light" returns the first variant of that polarity or fails when there is none; any other request fails; a result is always a variant's name |
| ThemeChange.ResolveVariantIdempotent | src/commands/theme_change.rs:147-154 | with case-insensitively distinct names, resolving a resolved name gives it back |
| ThemeChange.ResolveVariantExamples | src/commands/theme_change.rs:144-196 | "DARK" finds "dark"; an unknown request or theme fails |
| ThemeChange.ResolvePolarityExamples | src/commands/theme_change.rs:162-182 | "Dark" picks the first dark variant; "light" on an all-dark theme fails |
| ThemeChange.ResolveSingleVariantExample | src/commands/theme_change.rs:157-159 | a one-variant theme answers any request with its variant |

## Left out

- Filesystem and environment: `cache_base_dir` (`XDG_CACHE_HOME`/`HOME`), `state_dir`, `data_dir`, `themes_dir`, `manifest_path` and `discover_themes` read the environment or the disk; the model takes the resulting paths, file contents or theme list as arguments.
- Deserialisation: TOML and YAML parsing are foreign; the loaders start from the decoded shape, and any parse failure or missing required field is the single outcome `Malformed`.
- Tera: rendering is an uninterpreted function of template text and colours. Template syntax, strict variables and the filter pipeline are not modelled. `hex_to_rgb` and `strip_hash` are modelled on their own.
- Error messages: `Config` and `InvalidTheme` messages are tags carrying their parameters instead of formatted text. The "available variants" lists in `resolve_variant`'s messages are dropped. The scheme parse error and the filter errors keep their exact text.
- CacheRenderer.RenderTemplateFile: the "invalid template filename" error cannot occur for a name that ends in ".vogix", so it has no branch.
- Symlinks, reload signals and commands, the state file, the CLI commands and printing, logging, and `handle_theme_change`/`navigate_variant` are I/O plumbing and are not modelled.
- Out-of-date copies `src/theme.rs`, `src/config.rs`, `src/cli.rs` and `src/reload.rs` are not part of this model. They are superseded by `src/theme/*`, `src/config/mod.rs` and the newer callers.
- The Python scripts under `scripts/` are developer tooling, not part of the tool.
- Concurrency: two processes racing on one cache directory are not modelled; every method runs alone on its filesystem state.
- Text.Lower: lowercasing is ASCII-only; Rust's Unicode `to_lowercase` also folds non-ASCII letters.
- Filters.HexToRgb: slicing is per character; Rust slices by byte, and a multi-byte character would make its length check count bytes (and could panic on a non-boundary slice).
- Paths: a path read from a config value is one opaque component. `PathBuf::join` replacing the path when it meets an absolute component is not modelled.
- CacheRenderer.RenderTemplates: the output contents, "every template rendered" and the success condition are stated only when the cache directory is not the templates directory itself. Otherwise freshly written outputs would become entries of the directory being rendered, and the outcome would depend on the visit order.
- CacheRenderer.RenderWithPalette: its render outcome (output contents, every template rendered, the success condition) is stated only when the cache directory is not the templates directory, for the reason given for `RenderTemplates`.
- CacheRenderer.RenderToCache: its render outcome is likewise stated only when the cache directory is not the scheme's templates directory.
- CacheRenderer.RenderTemplates: `read_dir` is modelled as a snapshot of the directory's children taken before the loop, and individual `entry?` errors are not produced.
- ThemeCaches.CleanStale: `remove_dir_all` on an existing directory is taken to succeed, and the directory listing is not re-read during the loop.
- ThemeCaches.CleanStale: non-UTF-8 names (`to_string_lossy`) are not modelled; names are plain strings.
- Discovery.WrapU32: the `i64` range of TOML integers is not bounded; any integer is wrapped to its low 32 bits, which matches the cast on the `i64` range.
- Configs.LoadConfig: the manifest location, `manifest_path()` = `state_dir()/config.toml` (normally `~/.local/state/vogix/config.toml`), reads the environment and is a parameter.
