/** `load_theme_colors` (src/theme/loader/mod.rs): read a theme file and hand its
    text to the loader of the theme's scheme. The text parsers are parameters. */
module ThemeLoader {
  import opened Wrappers
  import opened FileSystem
  import opened Errors
  import opened ColorMaps
  import opened Schemes
  import Vogix16Loader
  import Base16Loader
  import Ansi16Loader

  /** The TOML and YAML deserialisers for the three file shapes. */
  datatype Parsers = Parsers(
    vogix16: string -> Decoded<Vogix16Loader.Vogix16Theme>,
    base16: string -> Decoded<Base16Loader.Base16Theme>,
    ansi16: string -> Decoded<Ansi16Loader.Ansi16Theme>)

  /** Whether the scheme's parser accepts `content`. */
  predicate Parses(content: string, scheme: Scheme, parsers: Parsers) {
    match scheme
    case Vogix16 => parsers.vogix16(content).Decoded?
    case Base16 | Base24 => parsers.base16(content).Decoded?
    case Ansi16 => parsers.ansi16(content).Decoded?
  }

  /** The scheme's loader applied to the file's text. */
  function Dispatch(content: string, scheme: Scheme, parsers: Parsers): (r: Result<ColorMap, Error>)
    ensures r.Ok? <==> Parses(content, scheme, parsers)
    ensures r.Err? ==> r.error == (if scheme == Base16 || scheme == Base24 then YamlParse else TomlParse)
  {
    match scheme
    case Vogix16 => Vogix16Loader.Load(parsers.vogix16(content))
    case Base16 | Base24 => Base16Loader.Load(parsers.base16(content))
    case Ansi16 => Ansi16Loader.Load(parsers.ansi16(content))
  }

  /** An unreadable file is reported as a missing configuration naming the path;
      a readable one succeeds exactly when its scheme's parser accepts it, and
      otherwise fails with that parser's error kind. */
  function LoadThemeColors(fs: Fs, path: Path, scheme: Scheme, parsers: Parsers): (r: Result<ColorMap, Error>)
    ensures ReadToString(fs, path).None? <==> r == Err(ConfigNotFound(path))
    ensures r.Ok? <==> ReadToString(fs, path).Some? && Parses(ReadToString(fs, path).value, scheme, parsers)
    ensures r.Err? && ReadToString(fs, path).Some? ==>
              r.error == (if scheme == Base16 || scheme == Base24 then YamlParse else TomlParse)
  {
    match ReadToString(fs, path)
    case None => Err(ConfigNotFound(path))
    case Some(content) => Dispatch(content, scheme, parsers)
  }

  /** base16 and base24 files go through the same loader. */
  lemma Base16AndBase24Agree(fs: Fs, path: Path, parsers: Parsers)
    ensures LoadThemeColors(fs, path, Base16, parsers) == LoadThemeColors(fs, path, Base24, parsers)
  {
  }
}
