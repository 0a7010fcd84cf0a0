/** The vogix16 loader (src/theme/loader/vogix16.rs): the `colors` table of the
    theme file, plus one semantic alias per base key that is present. */
module Vogix16Loader {
  import opened Wrappers
  import opened Errors
  import opened Collections
  import opened ColorMaps
  import opened KeyTables

  /** The shape the TOML deserialiser produces; other top-level fields are
      ignored by it. */
  datatype Vogix16Theme = Vogix16Theme(colors: ColorMap)

  /** The alias names whose base key is present in `colors`. */
  function AliasesPresent(colors: ColorMap, table: seq<(string, string)>): set<string> {
    set p | p in table && p.0 in colors :: p.1
  }

  /** The aliasing loop: for each row in order, when its base key is in
      `colors`, the semantic name is set to that colour. */
  function InsertAliases(acc: ColorMap, colors: ColorMap, table: seq<(string, string)>): (r: ColorMap)
    requires Distinct(NamesOf(table))
    ensures r.Keys == acc.Keys + AliasesPresent(colors, table)
    ensures forall k | k in acc && k !in AliasesPresent(colors, table) :: r[k] == acc[k]
    ensures forall p | p in table && p.0 in colors :: r[p.1] == colors[p.0]
    decreases |table|
  {
    if |table| == 0 then acc
    else
      var p := table[0];
      var rest := table[1..];
      DistinctNamesTail(table);
      assert table == [p] + rest;
      var next := if p.0 in colors then acc[p.1 := colors[p.0]] else acc;
      InsertAliases(next, colors, rest)
  }

  /** Dropping the first row keeps the names distinct, and the dropped name
      occurs in no later row. */
  lemma DistinctNamesTail(table: seq<(string, string)>)
    requires |table| > 0 && Distinct(NamesOf(table))
    ensures Distinct(NamesOf(table[1..]))
    ensures forall q | q in table[1..] :: q.1 != table[0].1
  {
    var rest := table[1..];
    forall i, j | 0 <= i < j < |rest|
      ensures NamesOf(rest)[i] != NamesOf(rest)[j]
    {
      assert NamesOf(rest)[i] == NamesOf(table)[i + 1];
      assert NamesOf(rest)[j] == NamesOf(table)[j + 1];
    }
    forall q | q in rest
      ensures q.1 != table[0].1
    {
      var k :| 0 <= k < |rest| && rest[k] == q;
      assert NamesOf(table)[k + 1] == q.1 && NamesOf(table)[0] == table[0].1;
    }
  }

  /** `load`: a malformed file is a TOML parse error; otherwise every raw entry
      is kept unless an alias overwrites it, and every alias whose base key is
      present maps to that base key's colour. */
  function Load(src: Decoded<Vogix16Theme>): (r: Result<ColorMap, Error>)
    ensures src.Malformed? <==> r.Err?
    ensures src.Malformed? ==> r == Err(TomlParse)
    ensures src.Decoded? ==>
              r.value.Keys == src.value.colors.Keys + AliasesPresent(src.value.colors, SemanticMappings)
    ensures src.Decoded? ==>
              forall p | p in SemanticMappings && p.0 in src.value.colors ::
                r.value[p.1] == src.value.colors[p.0]
    ensures src.Decoded? ==>
              forall k | k in src.value.colors && k !in AliasesPresent(src.value.colors, SemanticMappings) ::
                r.value[k] == src.value.colors[k]
  {
    match src
    case Malformed => Err(TomlParse)
    case Decoded(theme) =>
      MappingTableShape();
      Ok(InsertAliases(theme.colors, theme.colors, SemanticMappings))
  }

  /** An alias whose base key is absent is not added by the aliasing loop. */
  lemma AbsentBaseAddsNoAlias(colors: ColorMap, i: int)
    requires 0 <= i < |SemanticMappings|
    requires SemanticMappings[i].0 !in colors && SemanticMappings[i].1 !in colors
    ensures SemanticMappings[i].1 !in Load(Decoded(Vogix16Theme(colors))).value
  {
    MappingTableShape();
    var name := SemanticMappings[i].1;
    forall p | p in SemanticMappings && p.0 in colors
      ensures p.1 != name
    {
      var k :| 0 <= k < |SemanticMappings| && SemanticMappings[k] == p;
      assert k != i;
      assert NamesOf(SemanticMappings)[k] == p.1 && NamesOf(SemanticMappings)[i] == name;
    }
  }

  /** When every base key of a table is present, the aliases added are
      exactly the table's semantic names. */
  lemma AliasesCoverNames(colors: ColorMap, table: seq<(string, string)>)
    requires Elements(BasesOf(table)) <= colors.Keys
    ensures AliasesPresent(colors, table) == Elements(NamesOf(table))
  {
    forall n | n in Elements(NamesOf(table))
      ensures n in AliasesPresent(colors, table)
    {
      var k :| 0 <= k < |table| && NamesOf(table)[k] == n;
      assert BasesOf(table)[k] == table[k].0;
      assert table[k] in table;
    }
    forall n | n in AliasesPresent(colors, table)
      ensures n in Elements(NamesOf(table))
    {
      var p :| p in table && p.0 in colors && p.1 == n;
      var k :| 0 <= k < |table| && table[k] == p;
      assert NamesOf(table)[k] == n;
    }
  }

  /** Raw keys equal to a table's bases plus all of its aliases make twice as
      many keys as the table has rows, when no name repeats. */
  lemma FullTableDoublesKeys(colors: ColorMap, table: seq<(string, string)>)
    requires Distinct(BasesOf(table) + NamesOf(table))
    requires colors.Keys == Elements(BasesOf(table))
    ensures |colors.Keys + AliasesPresent(colors, table)| == 2 * |table|
  {
    AliasesCoverNames(colors, table);
    var all := BasesOf(table) + NamesOf(table);
    assert Elements(all) == Elements(BasesOf(table)) + Elements(NamesOf(table)) by {
      forall x | x in Elements(all)
        ensures x in Elements(BasesOf(table)) + Elements(NamesOf(table))
      {
        var k :| 0 <= k < |all| && all[k] == x;
        if k < |table| {
          assert BasesOf(table)[k] == x;
        } else {
          assert NamesOf(table)[k - |table|] == x;
        }
      }
    }
    DistinctCardinality(all);
  }

  /** A `colors` table holding exactly base00..base0F yields exactly 32 keys:
      the sixteen raw ones and the sixteen aliases. */
  lemma FullPaletteHas32Keys(colors: ColorMap)
    requires colors.Keys == Elements(Base16Keys)
    ensures |Load(Decoded(Vogix16Theme(colors))).value| == 32
  {
    MappingTableShape();
    FullTableDoublesKeys(colors, SemanticMappings);
  }

  /** The concrete mappings the loader tests in src/theme/loader/tests.rs check: background is base00,
      foreground_text is base05, success is base08 and danger is base0B. */
  lemma ConcreteAliases(colors: ColorMap, base: string, name: string)
    requires (base, name) in [("base00", "background"), ("base05", "foreground_text"),
                              ("base08", "success"), ("base0B", "danger")]
    requires base in colors
    ensures var r := Load(Decoded(Vogix16Theme(colors))).value;
            name in r && r[name] == colors[base]
  {
    assert (base, name) in SemanticMappings;
  }
}
