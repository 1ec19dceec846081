/**
 * The pile-casing bill of materials of product_product.py
 * (`_get_pile_casing_components`, `_get_casing_component` and its two
 * inner helpers).
 *
 * The casing is a permanent casing named after its outside diameter and wall,
 * which must exist in the catalogue; then, depending on which of the drive
 * band and the shoe are profiled, a profiling line, flat bars for the drive
 * band and the shoe, and the casing teeth. The numbers the rules read out of
 * the attribute text with regular expressions are given as a `Scan`.
 */
module StockCasing {
  import opened BomWrappers
  import opened PyNum
  import opened PyText
  import opened Bom

  /** The attribute values of a pile-casing variant: "" or `None` when unset, as each `.get` defaults. */
  datatype Attrs = Attrs(casingType: string, diameter: string, wall: string, segment: Option<string>,
                         length: string, bandSize: string, bandTypeA: string, bandTypeB: string,
                         shoeSize: Option<string>, shoeTypeA: Option<string>, shoeTypeB: Option<string>,
                         lockType: string, liftHoles: Option<string>, teeth: string)

  /** A wall-thickness match `(\d+(?:\.\d+)?)\s*mm`: its digits and decimal point. */
  type WallToken = t: Token | WellFormed(t) witness Token("0", "")

  /** `int(...)` of a `\d+\.?\d*` match: no match, a match with a point (which `int` refuses), or a whole number. */
  datatype IntRead = NoMatch | NotInteger | Integer(n: nat)

  /**
   * What the regular expressions find in the attribute text:
   *  - `odMm`: `(\d+)\s*mm` in the inside diameter;
   *  - `wallMm`: `(\d+(?:\.\d+)?)\s*mm` in the wall thickness;
   *  - `insideDia`, `wallThickness`, `casingLength`: `\d+\.?\d*` in those attributes;
   *  - `teethCount`: `\d+\.?\d*` in "No. of Teeth", read by `int`;
   *  - `bandFlat`, `shoeFlat`: `(\d+)x(\d+)t` in the drive band and shoe sizes;
   *  - `bandX`, `shoeX`: `x(\d+)t` in the same;
   *  - `bandSize`, `shoeSize`: `\b(\d+(?:\.\d+)?)\s*x\s*(\d+(?:\.\d+)?)\s*t\b`, ignoring case.
   */
  datatype Scan = Scan(odMm: Option<nat>, wallMm: Option<WallToken>,
                       insideDia: Option<real>, wallThickness: Option<real>, casingLength: Option<real>,
                       teethCount: IntRead,
                       bandFlat: Option<(nat, nat)>, shoeFlat: Option<(nat, nat)>,
                       bandX: Option<nat>, shoeX: Option<nat>,
                       bandSize: Option<(real, real)>, shoeSize: Option<(real, real)>)

  function WallValue(t: WallToken): (r: real)
    ensures r >= 0.0
  {
    Value(TokenDecimal(t))
  }

  /**
   * `int(od + 2 * wall)`: the outside diameter, the inside diameter plus
   * twice the wall, truncated to whole millimetres (0 and 0 when unmatched).
   */
  function CasingOd(sc: Scan): (r: nat)
    ensures var d := if sc.odMm.Some? then sc.odMm.value else 0;
            var w := if sc.wallMm.Some? then WallValue(sc.wallMm.value) else 0.0;
            r as real <= d as real + 2.0 * w < r as real + 1.0
  {
    var d := if sc.odMm.Some? then sc.odMm.value else 0;
    var w := if sc.wallMm.Some? then WallValue(sc.wallMm.value) else 0.0;
    Floor(d as real + 2.0 * w)
  }

  /** The wall as the name writes it: the matched text, or `0` without a match. */
  function WallText(sc: Scan): string
  {
    if sc.wallMm.Some? then TokenText(sc.wallMm.value) else "0"
  }

  /** `_permanent_casing_combination`: "Permanent Casing - OD{int(od)} WT{wall_str}". */
  function PermanentCasing(sc: Scan): string
  {
    "Permanent Casing - OD" + NatText(CasingOd(sc)) + " WT" + WallText(sc)
  }

  /** A whole-millimetre wall `w` on an inside diameter `d` makes an `OD{d + 2w} WT{w}` casing. */
  lemma PermanentCasingWhole(sc: Scan, d: nat, w: nat)
    requires sc.odMm == Some(d) && sc.wallMm.Some? && sc.wallMm.value == Token(NatText(w), "")
    ensures PermanentCasing(sc) == "Permanent Casing - OD" + NatText(d + 2 * w) + " WT" + NatText(w)
  {
    var t := sc.wallMm.value;
    NatTextRoundTrip(w);
    assert t.whole + t.frac == NatText(w);
    assert Pow10(0) == 1;
    assert WallValue(t) == w as real;
  }

  /** A 1200mm casing with a 12mm wall is `OD1224 WT12`. */
  lemma PermanentCasingExample(sc: Scan)
    requires sc.odMm == Some(1200) && sc.wallMm.Some? && sc.wallMm.value == Token("12", "")
    ensures PermanentCasing(sc) == "Permanent Casing - OD1224 WT12"
  {
    assert NatText(12) == "12" by {
      assert NatText(1) == "1" && NatText(2) == "2";
    }
    PermanentCasingWhole(sc, 1200, 12);
    assert NatText(1224) == "1224" by {
      assert NatText(1) == "1" && NatText(2) == "2" && NatText(4) == "4";
      assert NatText(12) == "12" && NatText(122) == "122";
    }
  }

  /** How a flat bar is laid around the casing. */
  datatype Align = IdAlign | OdAlign | Overlap

  /** The flat bar's centre-line circumference in metres before rounding. */
  function Girth(kind: Align, insideDia: real, wall: real, thickness: nat): real
  {
    match kind
    case IdAlign => (insideDia + thickness as real) * Pi / 1000.0
    case OdAlign => (insideDia + wall * 2.0 - thickness as real) * Pi / 1000.0
    case Overlap => (insideDia + wall * 2.0 + 6.0 + thickness as real) * Pi / 1000.0
  }

  /**
   * `_get_dband_shoe_qty`: 0.0 for an empty or missing size; otherwise the
   * flat bar's length in metres, rounded to hundredths, the thickness being
   * the `x(\d+)t` number of the size (0 without one).
   */
  function DbandShoeQty(kind: Align, insideDia: real, wall: real, size: Option<string>, x: Option<nat>): (r: real)
    ensures !Truthy(size) ==> r == 0.0
    ensures IsHundredths(r)
    ensures Truthy(size) ==> -0.005 <= r - Girth(kind, insideDia, wall, if x.Some? then x.value else 0) <= 0.005
  {
    if !Truthy(size) then 0.0
    else Round2(Girth(kind, insideDia, wall, if x.Some? then x.value else 0))
  }

  /** An overlapped bar is never shorter than an OD-aligned or, on a non-negative wall, an ID-aligned one. */
  lemma OverlapLongest(insideDia: real, wall: real, size: Option<string>, x: Option<nat>)
    ensures DbandShoeQty(OdAlign, insideDia, wall, size, x) <= DbandShoeQty(Overlap, insideDia, wall, size, x)
    ensures wall >= 0.0 ==> DbandShoeQty(IdAlign, insideDia, wall, size, x) <= DbandShoeQty(Overlap, insideDia, wall, size, x)
  {
    if Truthy(size) {
      var t := if x.Some? then x.value else 0;
      assert Girth(OdAlign, insideDia, wall, t) <= Girth(Overlap, insideDia, wall, t);
      Round2Monotone(Girth(OdAlign, insideDia, wall, t), Girth(Overlap, insideDia, wall, t));
      if wall >= 0.0 {
        assert Girth(IdAlign, insideDia, wall, t) <= Girth(Overlap, insideDia, wall, t);
        Round2Monotone(Girth(IdAlign, insideDia, wall, t), Girth(Overlap, insideDia, wall, t));
      }
    }
  }

  /**
   * `_get_dband_shoe_sizes`: "Flat Bar - {w}mm x {t}mm" when `(\d+)x(\d+)t`
   * matched with a non-zero width and thickness, "" otherwise.
   */
  function FlatBar(m: Option<(nat, nat)>): (r: string)
    ensures r != "" <==> m.Some? && m.value.0 != 0 && m.value.1 != 0
    ensures r != "" ==> |r| > |"Flat Bar - "| && r[..|"Flat Bar - "|] == "Flat Bar - "
  {
    if m.Some? && m.value.0 != 0 && m.value.1 != 0 then "Flat Bar - " + BarSize(m.value.0, m.value.1)
    else ""
  }

  /** "{w}mm x {t}mm". */
  function BarSize(w: nat, t: nat): string
  {
    NatText(w) + ("mm x " + (NatText(t) + "mm"))
  }

  /** Two flat bars share a name exactly when they share width and thickness. */
  lemma FlatBarInjective(m: Option<(nat, nat)>, n: Option<(nat, nat)>)
    requires FlatBar(m) != "" && FlatBar(m) == FlatBar(n)
    ensures m == n
  {
    var p := "Flat Bar - ";
    var a := BarSize(m.value.0, m.value.1);
    var b := BarSize(n.value.0, n.value.1);
    assert a == (p + a)[|p|..] == (p + b)[|p|..] == b;
    SizesInjective(m.value.0, m.value.1, n.value.0, n.value.1);
  }

  /** The width and thickness are read back from "{w}mm x {t}mm". */
  lemma SizesInjective(w1: nat, t1: nat, w2: nat, t2: nat)
    requires BarSize(w1, t1) == BarSize(w2, t2)
    ensures w1 == w2 && t1 == t2
  {
    DigitsThen(NatText(w1), "mm x " + (NatText(t1) + "mm"), NatText(w2), "mm x " + (NatText(t2) + "mm"));
    NatTextInjective(w1, w2);
    var k := |"mm x "|;
    assert NatText(t1) + "mm" == ("mm x " + (NatText(t1) + "mm"))[k..];
    assert NatText(t2) + "mm" == ("mm x " + (NatText(t2) + "mm"))[k..];
    DigitsThen(NatText(t1), "mm", NatText(t2), "mm");
    NatTextInjective(t1, t2);
  }

  const TeethPart := "BFZ318TB - Weld on Casing teeth"
  const ProfilingName := "Profiling - Pile Casing Stock"

  /** `[str(p) for p in parts if p is not None and p != '']` */
  function Given(parts: seq<Option<string>>): (r: seq<string>)
    ensures |r| <= |parts|
    ensures forall s :: s in r <==> s != "" && Some(s) in parts
  {
    if parts == [] then []
    else
      assert forall o :: o in parts <==> o == parts[0] || o in parts[1..];
      (if Truthy(parts[0]) then [parts[0].value] else []) + Given(parts[1..])
  }

  /** The profiling line quoting the given attributes. */
  function Profiling(parts: seq<Option<string>>): (r: Line)
    ensures r.qty == 1.0
  {
    Line(ProfilingName + " " + Join(Given(parts), ", "), 1.0)
  }

  /** Which of the six layouts `_get_casing_component` returns. */
  datatype Layout = BandProfiled | ShoeProfiled | BothProfiled | Plain | SameSize | Separate

  const ProfiledBand := "Profiled Drive Band"
  const ProfiledShoe := "Profiled Casing Shoe"

  /** Two `parse_size` results that are both found and equal, the tolerances being 0. */
  predicate SizesEqual(a: Option<(real, real)>, b: Option<(real, real)>)
  {
    a.Some? && b.Some? && Abs(a.value.0 - b.value.0) <= 0.0 && Abs(a.value.1 - b.value.1) <= 0.0
  }

  /** The layout is decided by the profiled drive band and shoe, then by whether any band or shoe is set. */
  function LayoutOf(a: Attrs, sc: Scan): (l: Layout)
    ensures l == BandProfiled <==> a.bandTypeB == ProfiledBand && a.shoeTypeB != Some(ProfiledShoe)
    ensures l == ShoeProfiled <==> a.bandTypeB != ProfiledBand && a.shoeTypeB == Some(ProfiledShoe)
    ensures l == BothProfiled <==> a.bandTypeB == ProfiledBand && a.shoeTypeB == Some(ProfiledShoe)
    ensures l == SameSize ==> sc.bandSize.Some? && sc.bandSize == sc.shoeSize
  {
    if a.bandTypeB == ProfiledBand && a.shoeTypeB != Some(ProfiledShoe) then BandProfiled
    else if a.shoeTypeB == Some(ProfiledShoe) && a.bandTypeB != ProfiledBand then ShoeProfiled
    else if a.bandTypeB == ProfiledBand && a.shoeTypeB == Some(ProfiledShoe) then BothProfiled
    else if !(a.bandSize != "" || a.bandTypeA != "" || a.bandTypeB != ""
              || Truthy(a.shoeSize) || Truthy(a.shoeTypeA) || Truthy(a.shoeTypeB)) then Plain
    else if SizesEqual(sc.bandSize, sc.shoeSize) then SameSize
    else Separate
  }

  function BandAlign(a: Attrs): Align
  {
    if a.bandTypeA == "ID Aligned Drive Band" then IdAlign else Overlap
  }

  function ShoeAlign(a: Attrs): Align
  {
    if a.shoeTypeA == Some("ID Aligned Casing Shoe") then IdAlign else OdAlign
  }

  function BandQty(a: Attrs, sc: Scan): real
    requires sc.insideDia.Some? && sc.wallThickness.Some?
  {
    DbandShoeQty(BandAlign(a), sc.insideDia.value, sc.wallThickness.value, Some(a.bandSize), sc.bandX)
  }

  function ShoeQty(a: Attrs, sc: Scan): real
    requires sc.insideDia.Some? && sc.wallThickness.Some?
  {
    DbandShoeQty(ShoeAlign(a), sc.insideDia.value, sc.wallThickness.value, a.shoeSize, sc.shoeX)
  }

  /** The attributes each profiled layout quotes. */
  function BandParts(a: Attrs): seq<Option<string>>
  {
    [Some(a.casingType), a.segment, Some(a.diameter), Some(a.wall), Some(a.bandSize), Some(a.bandTypeA),
     Some(a.lockType), a.liftHoles]
  }

  function ShoeParts(a: Attrs): seq<Option<string>>
  {
    [Some(a.casingType), a.segment, Some(a.diameter), Some(a.wall), a.shoeSize, a.shoeTypeA]
  }

  function BothParts(a: Attrs): seq<Option<string>>
  {
    [Some(a.casingType), a.segment, Some(a.diameter), Some(a.wall), Some(a.bandSize), Some(a.bandTypeA),
     a.shoeSize, a.shoeTypeA, Some(a.lockType), a.liftHoles]
  }

  function CasingQty(sc: Scan): real
  {
    if sc.casingLength.Some? then sc.casingLength.value else 0.0
  }

  /**
   * `_get_casing_component`: the casing line first and the teeth line last
   * (when teeth are chosen); between them the layout's profiling line and
   * flat bars. A diameter or wall without a number raises `AttributeError`,
   * a teeth count with a decimal point `ValueError`.
   */
  method CasingComponent(a: Attrs, sc: Scan, casing: string) returns (r: Result<seq<Line>>)
    ensures r.Fail? <==> sc.insideDia.None? || sc.wallThickness.None? || sc.teethCount == NotInteger
    ensures r.Fail? ==> r.error == (if sc.insideDia.None? || sc.wallThickness.None? then AttributeError else ValueError)
    ensures r.Ok? && a.teeth != "" ==>
      |r.value| >= 2 && r.value[|r.value| - 1] == Line(TeethPart, if sc.teethCount.Integer? then sc.teethCount.n as real else 0.0)
    ensures r.Ok? ==>
      var body := if a.teeth != "" then r.value[..|r.value| - 1] else r.value;
      |body| >= 1 && body[0] == Line(casing, CasingQty(sc)) && LayoutLines(a, sc, body[1..])
  {
    if sc.insideDia.None? || sc.wallThickness.None? {
      return Fail(AttributeError);
    }
    if sc.teethCount == NotInteger {
      return Fail(ValueError);
    }
    var teethQty := if sc.teethCount.Integer? then sc.teethCount.n as real else 0.0;
    var extra := BandAndShoe(a, sc);
    var items := [Line(casing, CasingQty(sc))] + extra;
    assert items[1..] == extra;
    var body := items;
    if a.teeth != "" {
      items := items + [Line(TeethPart, teethQty)];
      assert items[..|items| - 1] == body;
    }
    return Ok(items);
  }

  /** The lines that follow the casing, by the band and shoe layout. */
  predicate LayoutLines(a: Attrs, sc: Scan, extra: seq<Line>)
    requires sc.insideDia.Some? && sc.wallThickness.Some?
  {
    match LayoutOf(a, sc)
    case BandProfiled =>
      |extra| == (if Truthy(a.shoeSize) then 2 else 1) && extra[0] == Profiling(BandParts(a))
      && (Truthy(a.shoeSize) ==> extra[1] == Line(FlatBar(sc.shoeFlat), ShoeQty(a, sc)))
    case ShoeProfiled =>
      |extra| == (if a.bandSize != "" then 2 else 1) && extra[|extra| - 1] == Profiling(ShoeParts(a))
      && (a.bandSize != "" ==> extra[0] == Line(FlatBar(sc.bandFlat), BandQty(a, sc)))
    case BothProfiled => extra == [Profiling(BothParts(a))]
    case Plain => extra == []
    case SameSize => extra == [Line(FlatBar(sc.bandFlat), BandQty(a, sc) + ShoeQty(a, sc))]
    case Separate =>
      extra == (if FlatBar(sc.bandFlat) != "" then [Line(FlatBar(sc.bandFlat), BandQty(a, sc))] else [])
               + (if FlatBar(sc.shoeFlat) != "" then [Line(FlatBar(sc.shoeFlat), ShoeQty(a, sc))] else [])
  }

  /** The band, shoe and profiling lines appended after the casing. */
  method BandAndShoe(a: Attrs, sc: Scan) returns (items: seq<Line>)
    requires sc.insideDia.Some? && sc.wallThickness.Some?
    ensures LayoutLines(a, sc, items)
  {
    var flatBand := FlatBar(sc.bandFlat);
    var flatShoe := FlatBar(sc.shoeFlat);
    items := [];
    match LayoutOf(a, sc) {
    case BandProfiled =>
      items := items + [Profiling(BandParts(a))];
      if Truthy(a.shoeSize) {
        items := items + [Line(flatShoe, ShoeQty(a, sc))];
      }
    case ShoeProfiled =>
      if a.bandSize != "" {
        items := items + [Line(flatBand, BandQty(a, sc))];
      }
      items := items + [Profiling(ShoeParts(a))];
    case BothProfiled =>
      items := items + [Profiling(BothParts(a))];
    case Plain =>
    case SameSize =>
      items := items + [Line(flatBand, BandQty(a, sc) + ShoeQty(a, sc))];
    case Separate =>
      if flatBand != "" {
        items := items + [Line(flatBand, BandQty(a, sc))];
      }
      if flatShoe != "" {
        items := items + [Line(flatShoe, ShoeQty(a, sc))];
      }
    }
  }

  /**
   * `_get_pile_casing_components`: a permanent casing missing from the
   * catalogue raises the validation error; otherwise the casing's lines,
   * led by that casing.
   */
  method PileCasingComponents(a: Attrs, sc: Scan, inCatalogue: string -> bool) returns (r: Result<seq<Line>>)
    ensures !inCatalogue(PermanentCasing(sc)) ==>
      r == Fail(ValidationError("Oops! Casing is not available, please review the selection"))
    ensures inCatalogue(PermanentCasing(sc)) ==>
      (r.Fail? <==> sc.insideDia.None? || sc.wallThickness.None? || sc.teethCount == NotInteger)
    ensures r.Ok? ==> |r.value| >= 1 && r.value[0] == Line(PermanentCasing(sc), CasingQty(sc))
  {
    var casing := PermanentCasing(sc);
    if !inCatalogue(casing) {
      return Fail(ValidationError("Oops! Casing is not available, please review the selection"));
    }
    r := CasingComponent(a, sc, casing);
  }
}
