/** The two colour filters registered with the template engine
    (src/template/filters.rs): `strip_hash` and `hex_to_rgb`. */
module Filters {
  import opened Wrappers
  import opened Text

  /** The filter's input as the template engine passes it: a string, or any
      other JSON-like value (number, map, ...). */
  datatype TeraValue = TeraString(s: string) | OtherValue

  /** `trim_start_matches('#')`: `s` without its leading run of '#'. The three
      postconditions pin the result down (see TrimHashesUnique). */
  function TrimHashes(s: string): (r: string)
    ensures |r| <= |s| && r == s[|s| - |r|..]
    ensures forall i | 0 <= i < |s| - |r| :: s[i] == '#'
    ensures |r| > 0 ==> r[0] != '#'
    decreases |s|
  {
    if |s| > 0 && s[0] == '#' then TrimHashes(s[1..]) else s
  }

  /** The suffix of `s` that follows a leading run of '#' and does not itself
      start with '#'. */
  predicate IsHashFreeSuffix(s: string, r: string) {
    && |r| <= |s| && r == s[|s| - |r|..]
    && (forall i | 0 <= i < |s| - |r| :: s[i] == '#')
    && (|r| > 0 ==> r[0] != '#')
  }

  /** Only one suffix of `s` fits that description, so TrimHashes is it. */
  lemma {:induction false} TrimHashesUnique(s: string, r: string)
    requires IsHashFreeSuffix(s, r)
    ensures r == TrimHashes(s)
    decreases |s|
  {
    if |r| < |s| {
      assert s[0] == '#';
      assert s[1..][|s| - 1 - |r|..] == s[|s| - |r|..];
      TrimHashesUnique(s[1..], r);
    } else {
      assert r == s;
    }
  }

  const StripHashTypeError: string := "strip_hash expects a string"
  const HexToRgbTypeError: string := "hex_to_rgb expects a string"
  const HexToRgbLengthError: string := "hex_to_rgb expects 6 hex digits, got: "

  /** `strip_hash`: a string loses its leading '#'s; anything else is an error. */
  function StripHash(v: TeraValue): (r: Result<TeraValue, string>)
    ensures v.OtherValue? <==> r.Err?
    ensures r.Err? ==> r.error == StripHashTypeError
    ensures r.Ok? ==> r.value.TeraString? && IsHashFreeSuffix(v.s, r.value.s)
  {
    match v
    case OtherValue => Err(StripHashTypeError)
    case TeraString(hex) => Ok(TeraString(TrimHashes(hex)))
  }

  /** `hex_to_rgb`: "#RRGGBB" becomes "0xRR,0xGG,0xBB". The length check is the
      only validation: the six characters are not checked to be hex digits. */
  function HexToRgb(v: TeraValue): (r: Result<TeraValue, string>)
    ensures v.OtherValue? ==> r == Err(HexToRgbTypeError)
    ensures v.TeraString? ==> (r.Ok? <==> |TrimHashes(v.s)| == 6)
    ensures v.TeraString? && r.Err? ==> r.error == HexToRgbLengthError + v.s
    ensures r.Ok? ==> r.value.TeraString? && IsRgbTriple(r.value.s, TrimHashes(v.s))
  {
    match v
    case OtherValue => Err(HexToRgbTypeError)
    case TeraString(hex) =>
      var clean := TrimHashes(hex);
      if |clean| != 6 then Err(HexToRgbLengthError + hex)
      else Ok(TeraString(RgbTriple(clean)))
  }

  /** `format!("0x{},0x{},0x{}", r, g, b)` over the three digit pairs. */
  function RgbTriple(digits: string): (out: string)
    requires |digits| == 6
    ensures IsRgbTriple(out, digits)
  {
    var out := "0x" + digits[0..2] + ",0x" + digits[2..4] + ",0x" + digits[4..6];
    assert out[2..4] == digits[0..2] && out[7..9] == digits[2..4] && out[12..14] == digits[4..6];
    assert digits[0..2] + digits[2..4] + digits[4..6] == digits;
    out
  }

  /** `out` is "0x" + two characters, ",0x" + two, ",0x" + two, and the three
      pairs read in order spell `digits`. */
  predicate IsRgbTriple(out: string, digits: string) {
    && |out| == 14
    && out[0..2] == "0x" && out[4..7] == ",0x" && out[9..12] == ",0x"
    && out[2..4] + out[7..9] + out[12..14] == digits
  }

  /** Stripping twice is stripping once. */
  lemma StripHashIdempotent(v: TeraValue)
    requires v.TeraString?
    ensures StripHash(StripHash(v).value) == StripHash(v)
  {
  }

  /** A string that does not start with '#' passes through unchanged. */
  lemma StripHashWithoutHash(s: string)
    requires |s| == 0 || s[0] != '#'
    ensures StripHash(TeraString(s)) == Ok(TeraString(s))
  {
  }

  /** Stripping first changes nothing about a successful conversion, nor about
      whether the conversion succeeds. */
  lemma HexToRgbIgnoresStripHash(v: TeraValue)
    requires v.TeraString?
    ensures HexToRgb(StripHash(v).value).Ok? <==> HexToRgb(v).Ok?
    ensures HexToRgb(v).Ok? ==> HexToRgb(StripHash(v).value) == HexToRgb(v)
  {
    var t := TrimHashes(v.s);
    assert TrimHashes(t) == t;
  }

  /** A single leading '#' before a character other than '#' is all that
      TrimHashes removes. */
  lemma TrimOneHash(s: string)
    requires |s| > 0 && s[0] == '#' && (|s| == 1 || s[1] != '#')
    ensures TrimHashes(s) == s[1..]
  {
    TrimHashesUnique(s, s[1..]);
  }

  /** RgbTriple spelled out character by character. */
  lemma RgbTripleChars(d: string)
    requires |d| == 6
    ensures RgbTriple(d) == ['0', 'x', d[0], d[1], ',', '0', 'x', d[2], d[3], ',', '0', 'x', d[4], d[5]]
  {
  }

  /** The cases the unit tests in src/template/filters.rs check: upper- and lower-case digits are
      copied as they are, three digits are rejected, and strip_hash removes a
      leading '#' or leaves a bare value alone. */
  lemma HexToRgbUppercase()
    ensures HexToRgb(TeraString("#FF5733")) == Ok(TeraString("0xFF,0x57,0x33"))
  {
    TrimOneHash("#FF5733");
    RgbTripleChars("FF5733");
  }

  lemma HexToRgbLowercase()
    ensures HexToRgb(TeraString("#abcdef")) == Ok(TeraString("0xab,0xcd,0xef"))
  {
    TrimOneHash("#abcdef");
    RgbTripleChars("abcdef");
  }

  lemma HexToRgbShort()
    ensures HexToRgb(TeraString("#FFF")) == Err(HexToRgbLengthError + "#FFF")
  {
    TrimOneHash("#FFF");
  }

  lemma StripHashExamples()
    ensures StripHash(TeraString("#1e90ff")) == Ok(TeraString("1e90ff"))
    ensures StripHash(TeraString("1e90ff")) == Ok(TeraString("1e90ff"))
  {
    TrimOneHash("#1e90ff");
    StripHashWithoutHash("1e90ff");
  }
}
