/** The error kinds of the modelled core, and the outcome of a foreign decoder. */
module Errors {
  import opened FileSystem

  /** Why a configuration is rejected (vogix16 carries these as formatted messages). */
  datatype ConfigProblem =
    | NoTemplatesConfig
    | NoThemeSourcesConfig
    | TemplatesDirNotFound(dir: Path)

  /** Why a theme or variant request is rejected (vogix16 carries these as
      formatted messages). */
  datatype ThemeProblem =
    | VariantNotFound(variant: string)
    | AlreadyDarkest
    | AlreadyLightest
    | UnknownDirection(direction: string)
    | ThemeMissing(theme: string)
    | NoPolarityVariant(theme: string, requested: string)
    | UnknownVariant(requested: string, theme: string)

  datatype Error =
    | Io
    | ConfigNotFound(path: Path)
    | Config(configProblem: ConfigProblem)
    | TomlParse
    | YamlParse
    | InvalidTheme(themeProblem: ThemeProblem)
    | Template(message: string)

  /** What a foreign deserialiser (TOML or YAML) makes of a text: the decoded
      shape, or failure when the text is not well-formed or lacks a required
      field. */
  datatype Decoded<T> = Decoded(value: T) | Malformed
}
