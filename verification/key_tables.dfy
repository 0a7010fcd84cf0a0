/** The fixed key tables of the loaders: the vogix16 alias table
    (src/theme/loader/vogix16.rs) and the 22 ansi16 output keys
    (src/theme/loader/ansi16.rs), with the facts about their shape that the
    loaders rely on. */
module KeyTables {
  import opened Collections
  import opened ColorMaps

  /** `SEMANTIC_MAPPINGS`: base key to semantic name. */
  const SemanticMappings: seq<(string, string)> := [
    ("base00", "background"),
    ("base01", "background_surface"),
    ("base02", "background_selection"),
    ("base03", "foreground_comment"),
    ("base04", "foreground_border"),
    ("base05", "foreground_text"),
    ("base06", "foreground_heading"),
    ("base07", "foreground_bright"),
    ("base08", "success"),
    ("base09", "warning"),
    ("base0A", "notice"),
    ("base0B", "danger"),
    ("base0C", "active"),
    ("base0D", "link"),
    ("base0E", "highlight"),
    ("base0F", "special")
  ]

  function BasesOf(table: seq<(string, string)>): seq<string> {
    seq(|table|, i requires 0 <= i < |table| => table[i].0)
  }

  function NamesOf(table: seq<(string, string)>): seq<string> {
    seq(|table|, i requires 0 <= i < |table| => table[i].1)
  }

  /** The shape of the mapping table: sixteen rows, the base keys are exactly
      base00..base0F in order, and no semantic name repeats or collides with a
      base key. */
  lemma MappingTableShape()
    ensures |SemanticMappings| == 16
    ensures BasesOf(SemanticMappings) == Base16Keys
    ensures Distinct(NamesOf(SemanticMappings))
    ensures Distinct(Base16Keys + NamesOf(SemanticMappings))
  {
    NamesOfMappings();
    AliasNamesDistinct();
    BaseKeysDistinct();
    DistinctConcat(Base16Keys, AliasNames);
  }

  /** The semantic names in table order: eight background and foreground
      shades, then eight accents. */
  const ShadeNames: seq<string> := [
    "background", "background_surface", "background_selection", "foreground_comment",
    "foreground_border", "foreground_text", "foreground_heading", "foreground_bright"
  ]
  const AccentNames: seq<string> := [
    "success", "warning", "notice", "danger", "active", "link", "highlight", "special"
  ]
  const AliasNames: seq<string> := ShadeNames + AccentNames

  lemma NamesOfMappings()
    ensures NamesOf(SemanticMappings) == AliasNames
  {
  }

  /** Every shade name is at least ten characters long, and no two are equal. */
  lemma ShadeNamesDistinct()
    ensures Distinct(ShadeNames)
    ensures forall i | 0 <= i < |ShadeNames| :: |ShadeNames[i]| >= 10
  {
  }

  /** Every accent name is at most nine characters long and is not a
      six-character word starting with 'b'; no two are equal. */
  lemma AccentNamesDistinct()
    ensures Distinct(AccentNames)
    ensures forall i | 0 <= i < |AccentNames| :: |AccentNames[i]| <= 9
    ensures forall i | 0 <= i < |AccentNames| :: |AccentNames[i]| != 6 || AccentNames[i][0] != 'b'
  {
  }

  /** The semantic names are pairwise distinct, and each is told apart from
      every base key by its length or first letter. */
  lemma AliasNamesDistinct()
    ensures Distinct(AliasNames)
    ensures forall j | 0 <= j < |AliasNames| :: |AliasNames[j]| != 6 || AliasNames[j][0] != 'b'
  {
    ShadeNamesDistinct();
    AccentNamesDistinct();
    DistinctConcat(ShadeNames, AccentNames);
    forall j | 0 <= j < |AliasNames|
      ensures |AliasNames[j]| != 6 || AliasNames[j][0] != 'b'
    {
      if j >= |ShadeNames| {
        assert AliasNames[j] == AccentNames[j - |ShadeNames|];
      }
    }
  }

  /** The base keys are pairwise distinct, and each is six characters long and
      starts with 'b'. */
  lemma BaseKeysDistinct()
    ensures Distinct(Base16Keys)
    ensures forall i | 0 <= i < |Base16Keys| :: |Base16Keys[i]| == 6 && Base16Keys[i][0] == 'b'
  {
  }

  /** The 22 output keys in the order the loader inserts them. */
  const AnsiKeys: seq<string> := [
    "background", "foreground", "cursor_bg", "cursor_fg", "selection_bg", "selection_fg",
    "color00", "color01", "color02", "color03", "color04", "color05", "color06", "color07",
    "color08", "color09", "color10", "color11", "color12", "color13", "color14", "color15"
  ]

  /** The keys filled from the `normal` and `bright` sections. */
  const NormalKeys: seq<string> := ["color00", "color01", "color02", "color03", "color04", "color05", "color06", "color07"]
  const BrightKeys: seq<string> := ["color08", "color09", "color10", "color11", "color12", "color13", "color14", "color15"]

  /** The 22 keys section by section: primary, cursor, selection, normal, bright. */
  lemma AnsiKeysBySection()
    ensures AnsiKeys == ["background", "foreground"] + ["cursor_bg", "cursor_fg"] + ["selection_bg", "selection_fg"]
                        + NormalKeys + BrightKeys
  {
  }

  lemma AnsiKeysDistinct()
    ensures |AnsiKeys| == 22
    ensures Distinct(AnsiKeys)
  {
  }
}
