/** The ansi16 loader (src/theme/loader/ansi16.rs): an Alacritty-style colour file
    whose sections and fields are all optional, flattened into 22 fixed keys. */
module Ansi16Loader {
  import opened Wrappers
  import opened Errors
  import opened Collections
  import opened ColorMaps
  import opened KeyTables

  datatype Primary = Primary(background: Option<string>, foreground: Option<string>)
  datatype Cursor = Cursor(cursor: Option<string>, text: Option<string>)
  datatype Selection = Selection(background: Option<string>, text: Option<string>)

  /** The eight-colour shape shared by the `normal` and `bright` sections. */
  datatype Eight = Eight(black: Option<string>, red: Option<string>, green: Option<string>,
                         yellow: Option<string>, blue: Option<string>, magenta: Option<string>,
                         cyan: Option<string>, white: Option<string>)

  datatype Ansi16Colors = Ansi16Colors(primary: Option<Primary>, cursor: Option<Cursor>,
                                       selection: Option<Selection>, normal: Option<Eight>,
                                       bright: Option<Eight>)

  /** The deserialised file; a missing `colors` table is a parse failure. */
  datatype Ansi16Theme = Ansi16Theme(colors: Ansi16Colors)

  /** A key of the output and the field that may supply it. */
  type Slot = (string, Option<string>)

  function PrimarySlots(p: Option<Primary>): seq<Slot> {
    match p
    case None => [("background", None), ("foreground", None)]
    case Some(v) => [("background", v.background), ("foreground", v.foreground)]
  }

  function CursorSlots(c: Option<Cursor>): seq<Slot> {
    match c
    case None => [("cursor_bg", None), ("cursor_fg", None)]
    case Some(v) => [("cursor_bg", v.cursor), ("cursor_fg", v.text)]
  }

  function SelectionSlots(s: Option<Selection>): seq<Slot> {
    match s
    case None => [("selection_bg", None), ("selection_fg", None)]
    case Some(v) => [("selection_bg", v.background), ("selection_fg", v.text)]
  }

  /** The eight fields of a section under the given eight key names. */
  function EightSlots(e: Option<Eight>, names: seq<string>): seq<Slot>
    requires |names| == 8
  {
    match e
    case None => seq(8, i requires 0 <= i < 8 => (names[i], None))
    case Some(v) => [(names[0], v.black), (names[1], v.red), (names[2], v.green), (names[3], v.yellow),
                     (names[4], v.blue), (names[5], v.magenta), (names[6], v.cyan), (names[7], v.white)]
  }

  /** Every slot of a file, in insertion order. */
  function Slots(c: Ansi16Colors): seq<Slot> {
    PrimarySlots(c.primary) + CursorSlots(c.cursor) + SelectionSlots(c.selection)
    + EightSlots(c.normal, NormalKeys) + EightSlots(c.bright, BrightKeys)
  }

  function KeysOf(slots: seq<Slot>): seq<string> {
    seq(|slots|, i requires 0 <= i < |slots| => slots[i].0)
  }

  /** The keys whose field is present. */
  function Present(slots: seq<Slot>): set<string> {
    set p | p in slots && p.1.Some? :: p.0
  }

  /** `if let Some(v) = field { colors.insert(key, v) }`, once per slot in order. */
  function PutAll(m: ColorMap, slots: seq<Slot>): (r: ColorMap)
    ensures r.Keys == m.Keys + Present(slots)
    ensures forall k | k in m && k !in Present(slots) :: r[k] == m[k]
    ensures Distinct(KeysOf(slots)) ==>
              forall p | p in slots && p.1.Some? :: r[p.0] == p.1.value
    decreases |slots|
  {
    if |slots| == 0 then m
    else
      var p := slots[0];
      var rest := slots[1..];
      assert slots == [p] + rest;
      DistinctKeysTail(slots);
      var next := if p.1.Some? then m[p.0 := p.1.value] else m;
      PutAll(next, rest)
  }

  /** Dropping the first slot keeps the keys distinct, and the dropped key
      occurs in no later slot. */
  lemma DistinctKeysTail(slots: seq<Slot>)
    requires |slots| > 0
    ensures Distinct(KeysOf(slots)) ==> Distinct(KeysOf(slots[1..]))
    ensures Distinct(KeysOf(slots)) ==> forall q | q in slots[1..] :: q.0 != slots[0].0
  {
    if !Distinct(KeysOf(slots)) {
      return;
    }
    var rest := slots[1..];
    forall i, j | 0 <= i < j < |rest|
      ensures KeysOf(rest)[i] != KeysOf(rest)[j]
    {
      assert KeysOf(slots)[i + 1] == KeysOf(rest)[i] && KeysOf(slots)[j + 1] == KeysOf(rest)[j];
    }
    forall q | q in rest
      ensures q.0 != slots[0].0
    {
      var k :| 0 <= k < |rest| && rest[k] == q;
      assert KeysOf(slots)[k + 1] == q.0 && KeysOf(slots)[0] == slots[0].0;
    }
  }

  lemma KeysOfConcat(a: seq<Slot>, b: seq<Slot>)
    ensures KeysOf(a + b) == KeysOf(a) + KeysOf(b)
  {
  }

  /** Whatever the file holds, its slots are the 22 fixed keys in order. */
  lemma SlotsShape(c: Ansi16Colors)
    ensures KeysOf(Slots(c)) == AnsiKeys
    ensures Distinct(AnsiKeys)
  {
    AnsiKeysDistinct();
    var a := PrimarySlots(c.primary);
    var b := CursorSlots(c.cursor);
    var s := SelectionSlots(c.selection);
    var n := EightSlots(c.normal, NormalKeys);
    var br := EightSlots(c.bright, BrightKeys);
    assert KeysOf(a) == ["background", "foreground"];
    assert KeysOf(b) == ["cursor_bg", "cursor_fg"];
    assert KeysOf(s) == ["selection_bg", "selection_fg"];
    assert KeysOf(n) == NormalKeys;
    assert KeysOf(br) == BrightKeys;
    KeysOfConcat(a, b);
    KeysOfConcat(a + b, s);
    KeysOfConcat(a + b + s, n);
    KeysOfConcat(a + b + s + n, br);
    AnsiKeysBySection();
  }

  /** `load`: a malformed file is a TOML parse error; otherwise a key is present
      exactly when its field and the field's section are present, and then it
      holds that field's value. */
  function Load(src: Decoded<Ansi16Theme>): (r: Result<ColorMap, Error>)
    ensures src.Malformed? <==> r.Err?
    ensures src.Malformed? ==> r == Err(TomlParse)
    ensures src.Decoded? ==> r.value.Keys == Present(Slots(src.value.colors))
    ensures src.Decoded? ==>
              forall p | p in Slots(src.value.colors) && p.1.Some? :: r.value[p.0] == p.1.value
  {
    match src
    case Malformed => Err(TomlParse)
    case Decoded(theme) =>
      SlotsShape(theme.colors);
      Ok(PutAll(map[], Slots(theme.colors)))
  }

  /** Only the slots' own keys can be present. */
  lemma PresentAmongKeys(slots: seq<Slot>)
    ensures Present(slots) <= Elements(KeysOf(slots))
  {
    forall k | k in Present(slots)
      ensures k in Elements(KeysOf(slots))
    {
      var p :| p in slots && p.1.Some? && p.0 == k;
      var i :| 0 <= i < |slots| && slots[i] == p;
      assert KeysOf(slots)[i] == k;
    }
  }

  /** The output never holds a key outside the 22 fixed names. */
  lemma KeysAmongAnsiKeys(t: Ansi16Theme)
    ensures Load(Decoded(t)).value.Keys <= Elements(AnsiKeys)
  {
    SlotsShape(t.colors);
    PresentAmongKeys(Slots(t.colors));
  }

  /** Slots with the given keys, every one of them present, make exactly those keys. */
  lemma AllSlotsPresent(slots: seq<Slot>, keys: seq<string>)
    requires KeysOf(slots) == keys
    requires forall p | p in slots :: p.1.Some?
    ensures Present(slots) == Elements(keys)
  {
    forall k | k in Elements(keys)
      ensures k in Present(slots)
    {
      var i :| 0 <= i < |keys| && keys[i] == k;
      assert KeysOf(slots)[i] == k;
      assert slots[i] in slots;
    }
    forall k | k in Present(slots)
      ensures k in Elements(keys)
    {
      var p :| p in slots && p.1.Some? && p.0 == k;
      var i :| 0 <= i < |slots| && slots[i] == p;
      assert KeysOf(slots)[i] == k;
    }
  }

  /** A key held by no present slot is absent from the result. */
  lemma AbsentSlotAbsentKey(slots: seq<Slot>, i: int)
    requires Distinct(KeysOf(slots))
    requires 0 <= i < |slots| && slots[i].1.None?
    ensures slots[i].0 !in Present(slots)
  {
    forall p | p in slots && p.1.Some?
      ensures p.0 != slots[i].0
    {
      var j :| 0 <= j < |slots| && slots[j] == p;
      assert KeysOf(slots)[j] == p.0 && KeysOf(slots)[i] == slots[i].0;
    }
  }

  /** A file that supplies every field yields exactly the 22 keys. */
  lemma CompleteFileHas22Keys(t: Ansi16Theme)
    requires forall p | p in Slots(t.colors) :: p.1.Some?
    ensures Load(Decoded(t)).value.Keys == Elements(AnsiKeys)
    ensures |Load(Decoded(t)).value| == 22
  {
    SlotsShape(t.colors);
    AllSlotsPresent(Slots(t.colors), AnsiKeys);
    DistinctCardinality(AnsiKeys);
  }

  /** A missing section contributes no key. */
  lemma MissingNormalSection(t: Ansi16Theme)
    requires t.colors.normal.None?
    ensures forall i | 6 <= i < 14 :: AnsiKeys[i] !in Load(Decoded(t)).value
  {
    SlotsShape(t.colors);
    var slots := Slots(t.colors);
    forall i | 6 <= i < 14
      ensures AnsiKeys[i] !in Present(slots)
    {
      assert KeysOf(slots)[i] == slots[i].0;
      AbsentSlotAbsentKey(slots, i);
    }
  }

  /** Where the primary, normal-black and bright-black fields sit among the slots. */
  lemma SlotPositions(c: Ansi16Colors)
    requires c.primary.Some? && c.normal.Some? && c.bright.Some?
    ensures Slots(c)[0] == ("background", c.primary.value.background)
    ensures Slots(c)[1] == ("foreground", c.primary.value.foreground)
    ensures Slots(c)[6] == ("color00", c.normal.value.black)
    ensures Slots(c)[14] == ("color08", c.bright.value.black)
  {
    var head := PrimarySlots(c.primary) + CursorSlots(c.cursor) + SelectionSlots(c.selection);
    var n := EightSlots(c.normal, NormalKeys);
    var br := EightSlots(c.bright, BrightKeys);
    assert Slots(c) == head + n + br;
    assert |head| == 6 && |n| == 8;
  }

  /** The mappings the loader tests in src/theme/loader/tests.rs check: black of `normal` is color00, black
      of `bright` is color08, the primary background is background, and an
      unset primary foreground leaves `foreground` out. */
  lemma ConcreteMappings(t: Ansi16Theme, bg: string, black: string, brightBlack: string)
    requires t.colors.primary == Some(Primary(Some(bg), None))
    requires t.colors.normal.Some? && t.colors.normal.value.black == Some(black)
    requires t.colors.bright.Some? && t.colors.bright.value.black == Some(brightBlack)
    ensures var r := Load(Decoded(t)).value;
            && "background" in r && r["background"] == bg
            && "color00" in r && r["color00"] == black
            && "color08" in r && r["color08"] == brightBlack
            && "foreground" !in r
  {
    SlotPositions(t.colors);
    var slots := Slots(t.colors);
    assert slots[0] in slots && slots[6] in slots && slots[14] in slots;
    assert "foreground" !in Present(slots) by {
      SlotsShape(t.colors);
      AbsentSlotAbsentKey(slots, 1);
    }
  }
}
