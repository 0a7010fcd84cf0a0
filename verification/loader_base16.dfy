/** The base16/base24 loader (src/theme/loader/base16_24.rs): the `palette`
    mapping of a YAML theme file, returned unchanged. */
module Base16Loader {
  import opened Wrappers
  import opened Errors
  import opened ColorMaps

  /** The deserialised file; other top-level fields are ignored. */
  datatype Base16Theme = Base16Theme(palette: ColorMap)

  /** `load`: a malformed file is a YAML parse error; otherwise the palette is
      the result, with nothing added, removed or renamed, whether it holds the
      sixteen base16 keys or the twenty-four base24 ones. */
  function Load(src: Decoded<Base16Theme>): (r: Result<ColorMap, Error>)
    ensures src.Malformed? <==> r.Err?
    ensures r.Err? ==> r.error == YamlParse
    ensures r.Ok? ==> r.value.Keys == src.value.palette.Keys
    ensures r.Ok? ==> forall k | k in r.value :: r.value[k] == src.value.palette[k]
  {
    match src
    case Malformed => Err(YamlParse)
    case Decoded(theme) => Ok(theme.palette)
  }
}
