/** The closed set of palette formats (`Scheme` in src/scheme.rs) with its
    display names and the case-insensitive parser. */
module Schemes {
  import opened Wrappers
  import opened Text

  datatype Scheme = Ansi16 | Base16 | Base24 | Vogix16

  /** Every scheme, in the alphabetical order the unit tests in src/scheme.rs use. */
  const AllSchemes: seq<Scheme> := [Ansi16, Base16, Base24, Vogix16]

  /** `impl Display for Scheme`. */
  function Name(s: Scheme): (r: string)
    ensures |r| >= 6
    ensures forall i | 0 <= i < |r| :: !('A' <= r[i] <= 'Z')
  {
    match s
    case Vogix16 => "vogix16"
    case Base16 => "base16"
    case Base24 => "base24"
    case Ansi16 => "ansi16"
  }

  /** `#[default]`: the scheme used when none is given. */
  function DefaultScheme(): (s: Scheme)
    ensures Name(s) == "vogix16"
  {
    Vogix16
  }

  /** `impl FromStr for Scheme`: the input is lowercased, then matched against the
      four display names. */
  function Parse(s: string): (r: Result<Scheme, string>)
    ensures r.Ok? <==> exists sc :: Name(sc) == Lower(s)
    ensures r.Ok? ==> Name(r.value) == Lower(s)
    ensures r.Err? ==> r.error == "Unknown scheme: " + s + ". Valid schemes: vogix16, base16, base24, ansi16"
  {
    var l := Lower(s);
    if l == "vogix16" then assert Name(Vogix16) == l; Ok(Vogix16)
    else if l == "base16" then assert Name(Base16) == l; Ok(Base16)
    else if l == "base24" then assert Name(Base24) == l; Ok(Base24)
    else if l == "ansi16" then assert Name(Ansi16) == l; Ok(Ansi16)
    else Err("Unknown scheme: " + s + ". Valid schemes: vogix16, base16, base24, ansi16")
  }

  /** Distinct schemes print distinct names. */
  lemma NameInjective(a: Scheme, b: Scheme)
    requires Name(a) == Name(b)
    ensures a == b
  {
  }

  /** Parsing a displayed name gives the scheme back. */
  lemma ParseName(sc: Scheme)
    ensures Parse(Name(sc)) == Ok(sc)
  {
    LowerOfLowercase(Name(sc));
    if Parse(Name(sc)).Ok? {
      NameInjective(Parse(Name(sc)).value, sc);
    }
  }

  /** Case does not matter: a string parses exactly when its lowercase form does,
      and to the same scheme. */
  lemma ParseIgnoresCase(s: string)
    ensures Parse(s).Ok? <==> Parse(Lower(s)).Ok?
    ensures Parse(s).Ok? ==> Parse(s).value == Parse(Lower(s)).value
  {
    LowerIdempotent(s);
  }

  /** A string whose lowercase form is a scheme's name parses to that scheme. */
  lemma ParseLowered(s: string, sc: Scheme)
    requires Lower(s) == Name(sc)
    ensures Parse(s) == Ok(sc)
  {
    ParseName(sc);
    ParseIgnoresCase(s);
  }

  /** Lowercasing a six-character string, character by character. */
  lemma LowerSix(s: string)
    requires |s| == 6
    ensures Lower(s) == [LowerChar(s[0]), LowerChar(s[1]), LowerChar(s[2]),
                         LowerChar(s[3]), LowerChar(s[4]), LowerChar(s[5])]
  {
  }

  /** The cases the unit test in src/scheme.rs checks. */
  lemma ParseExamples()
    ensures Parse("vogix16") == Ok(Vogix16)
    ensures Parse("BASE16") == Ok(Base16)
    ensures Parse("Base24") == Ok(Base24)
    ensures Parse("ANSI16") == Ok(Ansi16)
    ensures Parse("invalid").Err?
  {
    ParseName(Vogix16);
    LowerSix("BASE16");
    ParseLowered("BASE16", Base16);
    LowerSix("Base24");
    ParseLowered("Base24", Base24);
    LowerSix("ANSI16");
    ParseLowered("ANSI16", Ansi16);
    LowerOfLowercase("invalid");
  }
}
