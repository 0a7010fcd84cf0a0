/** Themes and their variants (src/theme/types.rs): ordering variants from
    lightest to darkest, the default variant of a polarity, and stepping one
    variant darker or lighter. */
module ThemeTypes {
  import opened Wrappers
  import opened Text
  import opened Sorting
  import opened Collections
  import opened Schemes
  import opened Errors

  /** Rust's `u32`. */
  type U32 = x: int | 0 <= x < 0x1_0000_0000

  /** A variant; `order` 0 is the lightest. */
  datatype VariantInfo = VariantInfo(name: string, polarity: string, order: U32)

  datatype ThemeInfo = ThemeInfo(name: string, scheme: Scheme, variants: seq<VariantInfo>)

  /** The key `variants_by_order` sorts on. */
  predicate OrderLe(a: VariantInfo, b: VariantInfo) {
    a.order <= b.order
  }

  lemma OrderLeIsTotalOrder()
    ensures Total(OrderLe) && Transitive(OrderLe)
  {
  }

  /** `variants_by_order`: the variants sorted by `order`, lightest first. */
  function VariantsByOrder(t: ThemeInfo): (r: seq<VariantInfo>)
    ensures multiset(r) == multiset(t.variants)
    ensures |r| == |t.variants|
    ensures Sorted(r, OrderLe)
  {
    OrderLeIsTotalOrder();
    SortBySorted(t.variants, OrderLe);
    SortBy(t.variants, OrderLe)
  }

  /** The sort is stable: variants with equal `order` keep their manifest order. */
  lemma VariantsByOrderStable(t: ThemeInfo, x: VariantInfo)
    ensures KeepTied(VariantsByOrder(t), OrderLe, x) == KeepTied(t.variants, OrderLe, x)
  {
    OrderLeIsTotalOrder();
    SortByStable(t.variants, OrderLe, x);
  }

  /** Position of the first variant whose name equals `name` ignoring case,
      or -1. */
  function Position(vs: seq<VariantInfo>, name: string): (i: int)
    ensures -1 <= i < |vs|
    ensures i >= 0 ==> Lower(vs[i].name) == Lower(name)
    ensures forall j | 0 <= j < |vs| && (i == -1 || j < i) :: Lower(vs[j].name) != Lower(name)
    decreases |vs|
  {
    if |vs| == 0 then -1
    else if Lower(vs[0].name) == Lower(name) then 0
    else
      var k := Position(vs[1..], name);
      if k == -1 then -1 else k + 1
  }

  /** Position of the first variant of the given polarity (compared exactly),
      or -1. */
  function PolarityPosition(vs: seq<VariantInfo>, polarity: string): (i: int)
    ensures -1 <= i < |vs|
    ensures i >= 0 ==> vs[i].polarity == polarity
    ensures forall j | 0 <= j < |vs| && (i == -1 || j < i) :: vs[j].polarity != polarity
    decreases |vs|
  {
    if |vs| == 0 then -1
    else if vs[0].polarity == polarity then 0
    else
      var k := PolarityPosition(vs[1..], polarity);
      if k == -1 then -1 else k + 1
  }

  /** `default_variant_for_polarity`: the first variant of that polarity,
      else the first variant, and nothing only when there are no variants. */
  function DefaultVariantForPolarity(t: ThemeInfo, polarity: string): (r: Option<VariantInfo>)
    ensures r.None? <==> |t.variants| == 0
    ensures r.Some? ==> r.value in t.variants
    ensures (exists i | 0 <= i < |t.variants| :: t.variants[i].polarity == polarity) ==>
              r.Some? && r.value.polarity == polarity
              && exists i | 0 <= i < |t.variants| :: t.variants[i] == r.value
                   && forall j | 0 <= j < i :: t.variants[j].polarity != polarity
    ensures (forall i | 0 <= i < |t.variants| :: t.variants[i].polarity != polarity) && |t.variants| > 0 ==>
              r == Some(t.variants[0])
  {
    var i := PolarityPosition(t.variants, polarity);
    if i >= 0 then Some(t.variants[i])
    else if |t.variants| > 0 then Some(t.variants[0])
    else None
  }

  /** `navigate`: from `current` (matched ignoring case) one step along the
      order, "darker" forward and "lighter" back (the direction also ignoring
      case), refusing to step past either end. */
  function Navigate(t: ThemeInfo, current: string, direction: string): (r: Result<string, Error>)
    ensures r == Err(InvalidTheme(VariantNotFound(current))) <==>
              forall i | 0 <= i < |t.variants| :: Lower(t.variants[i].name) != Lower(current)
    ensures r.Ok? ==> exists i | 0 <= i < |t.variants| :: t.variants[i].name == r.value
    ensures r.Ok? ==> Lower(direction) == "darker" || Lower(direction) == "lighter"
    ensures var s := VariantsByOrder(t);
            var i := Position(s, current);
            i >= 0 ==>
              && (Lower(direction) == "darker" ==>
                    (if i == |s| - 1 then r == Err(InvalidTheme(AlreadyDarkest)) else r == Ok(s[i + 1].name)))
              && (Lower(direction) == "lighter" ==>
                    (if i == 0 then r == Err(InvalidTheme(AlreadyLightest)) else r == Ok(s[i - 1].name)))
              && (Lower(direction) != "darker" && Lower(direction) != "lighter" ==>
                    r == Err(InvalidTheme(UnknownDirection(direction))))
  {
    var sorted := VariantsByOrder(t);
    var idx := Position(sorted, current);
    PositionInPermutation(sorted, t.variants, current);
    if idx == -1 then Err(InvalidTheme(VariantNotFound(current)))
    else
      var d := Lower(direction);
      if d == "darker" then
        if idx >= |sorted| - 1 then Err(InvalidTheme(AlreadyDarkest))
        else ResultIsVariant(sorted, t.variants, idx + 1); Ok(sorted[idx + 1].name)
      else if d == "lighter" then
        if idx == 0 then Err(InvalidTheme(AlreadyLightest))
        else ResultIsVariant(sorted, t.variants, idx - 1); Ok(sorted[idx - 1].name)
      else Err(InvalidTheme(UnknownDirection(direction)))
  }

  /** A name matches in a permutation exactly when it matches in the original. */
  lemma PositionInPermutation(a: seq<VariantInfo>, b: seq<VariantInfo>, name: string)
    requires multiset(a) == multiset(b)
    ensures Position(a, name) == -1 <==> forall i | 0 <= i < |b| :: Lower(b[i].name) != Lower(name)
  {
    if Position(a, name) >= 0 {
      var v := a[Position(a, name)];
      assert v in multiset(b);
      var k :| 0 <= k < |b| && b[k] == v;
      assert Lower(b[k].name) == Lower(name);
    } else {
      forall i | 0 <= i < |b|
        ensures Lower(b[i].name) != Lower(name)
      {
        assert b[i] in multiset(a);
        var k :| 0 <= k < |a| && a[k] == b[i];
        assert Lower(a[k].name) != Lower(name);
      }
    }
  }

  /** An element of a permutation is an element of the original. */
  lemma ResultIsVariant(a: seq<VariantInfo>, b: seq<VariantInfo>, i: int)
    requires multiset(a) == multiset(b) && 0 <= i < |a|
    ensures exists k | 0 <= k < |b| :: b[k].name == a[i].name
  {
    assert a[i] in multiset(b);
    var k :| 0 <= k < |b| && b[k] == a[i];
  }

  /** No two variants share a name up to case. */
  predicate NamesDistinctIgnoringCase(vs: seq<VariantInfo>) {
    forall i, j | 0 <= i < j < |vs| :: Lower(vs[i].name) != Lower(vs[j].name)
  }

  function LowerName(v: VariantInfo): string {
    Lower(v.name)
  }

  /** In a list with case-insensitively distinct names, a variant is found at
      its own position. */
  lemma PositionOfOwnName(s: seq<VariantInfo>, i: int)
    requires forall p, q | 0 <= p < q < |s| :: LowerName(s[p]) != LowerName(s[q])
    requires 0 <= i < |s|
    ensures Position(s, s[i].name) == i
  {
  }

  /** Sorted by order, with case-insensitively distinct names. */
  lemma SortedNamesDistinct(t: ThemeInfo)
    requires NamesDistinctIgnoringCase(t.variants)
    ensures var s := VariantsByOrder(t);
            forall p, q | 0 <= p < q < |s| :: LowerName(s[p]) != LowerName(s[q])
  {
    assert forall p, q | 0 <= p < q < |t.variants| :: LowerName(t.variants[p]) != LowerName(t.variants[q]);
    PermutationKeepsDistinctKeys(t.variants, VariantsByOrder(t), LowerName);
  }

  /** With case-insensitively distinct names, a step darker followed by a step
      lighter comes back to the starting variant, in its stored spelling. */
  lemma DarkerThenLighter(t: ThemeInfo, current: string, step: string, back: string)
    requires NamesDistinctIgnoringCase(t.variants)
    requires Lower(step) == "darker" && Lower(back) == "lighter"
    requires Navigate(t, current, step).Ok?
    ensures Navigate(t, Navigate(t, current, step).value, back).Ok?
    ensures Lower(Navigate(t, Navigate(t, current, step).value, back).value) == Lower(current)
  {
    var s := VariantsByOrder(t);
    var i := Position(s, current);
    PositionInPermutation(s, t.variants, current);
    assert i >= 0 && i < |s| - 1;
    var n := s[i + 1].name;
    assert Navigate(t, current, step) == Ok(n);
    SortedNamesDistinct(t);
    PositionOfOwnName(s, i + 1);
    assert Navigate(t, n, back) == Ok(s[i].name);
  }

  /** With case-insensitively distinct names, a step lighter followed by a step
      darker comes back to the starting variant, in its stored spelling. */
  lemma LighterThenDarker(t: ThemeInfo, current: string, step: string, back: string)
    requires NamesDistinctIgnoringCase(t.variants)
    requires Lower(step) == "lighter" && Lower(back) == "darker"
    requires Navigate(t, current, step).Ok?
    ensures Navigate(t, Navigate(t, current, step).value, back).Ok?
    ensures Lower(Navigate(t, Navigate(t, current, step).value, back).value) == Lower(current)
  {
    var s := VariantsByOrder(t);
    var i := Position(s, current);
    PositionInPermutation(s, t.variants, current);
    assert i >= 1;
    var n := s[i - 1].name;
    assert Navigate(t, current, step) == Ok(n);
    SortedNamesDistinct(t);
    PositionOfOwnName(s, i - 1);
    assert Navigate(t, n, back) == Ok(s[i].name);
  }

  /** The multi-variant fixture of the unit tests in src/theme/types.rs: dawn, moon and base in order 0, 1, 2. */
  function RosePine(): ThemeInfo {
    ThemeInfo("rose-pine", Base16, [
      VariantInfo("dawn", "light", 0),
      VariantInfo("moon", "dark", 1),
      VariantInfo("base", "dark", 2)])
  }

  lemma RosePineInOrder()
    ensures VariantsByOrder(RosePine()) == RosePine().variants
  {
    var v := RosePine().variants;
    assert Sorted(v, OrderLe) by {
      assert v[0].order == 0 && v[1].order == 1 && v[2].order == 2;
    }
    SortByOfSorted(v, OrderLe);
  }

  lemma RosePinePositions()
    ensures Position(RosePine().variants, "dawn") == 0
    ensures Position(RosePine().variants, "moon") == 1
    ensures Position(RosePine().variants, "base") == 2
  {
    LowerOfLowercase("dawn");
    LowerOfLowercase("moon");
    LowerOfLowercase("base");
    assert "dawn" != "moon" && "dawn" != "base" && "moon" != "base";
  }

  lemma StepAt(t: ThemeInfo, current: string, direction: string, i: int)
    requires Lower(direction) == "darker" || Lower(direction) == "lighter"
    requires 0 <= i < |t.variants| && Position(VariantsByOrder(t), current) == i
    ensures Lower(direction) == "darker" && i < |t.variants| - 1 ==>
              Navigate(t, current, direction) == Ok(VariantsByOrder(t)[i + 1].name)
    ensures Lower(direction) == "lighter" && i > 0 ==>
              Navigate(t, current, direction) == Ok(VariantsByOrder(t)[i - 1].name)
  {
  }

  /** Stepping through the fixture as the unit tests in src/theme/types.rs do. */
  lemma NavigateRosePine(darker: string, lighter: string)
    requires Lower(darker) == "darker" && Lower(lighter) == "lighter"
    ensures Navigate(RosePine(), "dawn", darker) == Ok("moon")
    ensures Navigate(RosePine(), "moon", darker) == Ok("base")
    ensures Navigate(RosePine(), "base", lighter) == Ok("moon")
    ensures Navigate(RosePine(), "moon", lighter) == Ok("dawn")
  {
    RosePineInOrder();
    RosePinePositions();
    StepAt(RosePine(), "dawn", darker, 0);
    StepAt(RosePine(), "moon", darker, 1);
    StepAt(RosePine(), "base", lighter, 2);
    StepAt(RosePine(), "moon", lighter, 1);
  }

  /** The fixture's darkest variant cannot go darker, nor its lightest lighter. */
  lemma NavigateRosePineEnds(darker: string, lighter: string)
    requires Lower(darker) == "darker" && Lower(lighter) == "lighter"
    ensures Navigate(RosePine(), "base", darker) == Err(InvalidTheme(AlreadyDarkest))
    ensures Navigate(RosePine(), "dawn", lighter) == Err(InvalidTheme(AlreadyLightest))
  {
    RosePineInOrder();
    RosePinePositions();
    assert "lighter" != "darker";
  }

  /** The variants come back ordered by `order` whatever order the manifest
      listed them in. */
  lemma VariantsByOrderExample()
    ensures VariantsByOrder(ThemeInfo("rose-pine", Base16, [
              VariantInfo("base", "dark", 2),
              VariantInfo("dawn", "light", 0),
              VariantInfo("moon", "dark", 1)])) == RosePine().variants
  {
    SortRotatesFirst(VariantInfo("base", "dark", 2), VariantInfo("dawn", "light", 0),
                     VariantInfo("moon", "dark", 1), OrderLe);
  }
}
