/** The loaders' common output: a flat map from colour key to colour value
    (for example "base00" to "#1e1e2e"), values kept exactly as the theme
    file spells them. */
module ColorMaps {

  type ColorMap = map<string, string>

  /** The sixteen base16 keys, base00 to base0F, in order. */
  const Base16Keys: seq<string> := [
    "base00", "base01", "base02", "base03", "base04", "base05", "base06", "base07",
    "base08", "base09", "base0A", "base0B", "base0C", "base0D", "base0E", "base0F"
  ]
}
