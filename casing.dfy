/**
 * The pile-casing bill of materials of bom_automation_v2.py and the
 * surviving pieces of bom_automation_v1.py.
 *
 * A Standard casing is the casing, the teeth and the drive-band flat bar; a
 * Segmental (or any other) casing is the casing, the teeth and a profiling
 * line. The casing may be flagged as not stocked, or left out altogether.
 */
module PileCasing {
  import opened BomWrappers
  import opened PyNum
  import opened PyText
  import opened Bom
  import StockCasing

  /** The attribute values of a pile-casing variant, "" when unset. */
  datatype Attrs = Attrs(casingType: string, diameter: string, wall: string, length: string,
                         band: string, bandType: string, lockType: string, teeth: string,
                         customization: string, missing: string)

  type Digits = s: string | |s| >= 1 && AllDigits(s) witness "0"

  /**
   * What the regular expressions find in the attribute text:
   *  - `odDigits`: the digits of `(\d+)\s*mm` in the inside diameter;
   *  - `wallMm`: `(\d+(?:\.\d+)?)\s*mm` in the wall thickness;
   *  - `insideDia`, `wallThickness`, `casingLength`: `\d+\.?\d*` in those attributes;
   *  - `teethCount`: `\d+\.?\d*` in "No. of Teeth", read by `int`;
   *  - `bandFlat`: `(\d+)x(\d+)t` and `bandX`: `x(\d+)t` in the drive band.
   */
  datatype Scan = Scan(odDigits: Option<Digits>, wallMm: Option<StockCasing.WallToken>,
                       insideDia: Option<real>, wallThickness: Option<real>, casingLength: Option<real>,
                       teethCount: StockCasing.IntRead, bandFlat: Option<(nat, nat)>, bandX: Option<nat>)

  const NonStock := "Permanent Casing - Non-Stocked"
  const WithoutCasing := "Proceed without Casing"
  const TeethPart := "BFZ318 - Weld on Casing teeth - BETEK"

  /** The casing line's item: the casing, or the casing flagged " - Non-Stocked". */
  function CasingItem(casing: string, missing: string): (r: string)
    ensures missing == NonStock <==> r == casing + " - Non-Stocked"
  {
    if missing != NonStock then casing else casing + " " + "- Non-Stocked"
  }

  /**
   * The lines `_get_pile_casing_type_components` builds: the casing unless the
   * casing is to be left out, the teeth when chosen, then the drive band
   * (Standard, when a band is chosen) or the profiling line (any other type).
   */
  function TypeLines(missing: string, casingType: string, profiling: string, casing: string, casingQty: real,
                     teeth: string, teethQty: real, band: string, bandName: string, bandQty: real): (r: seq<Line>)
    ensures var lead := (if missing != WithoutCasing then 1 else 0) + (if teeth != "" then 1 else 0);
            |r| == lead + (if casingType != "Standard" || band != "" then 1 else 0)
            && (missing != WithoutCasing ==> r[0] == Line(CasingItem(casing, missing), casingQty))
            && (teeth != "" ==> r[lead - 1] == Line(TeethPart, teethQty))
            && (casingType == "Standard" && band != "" ==> r[lead] == Line(bandName, bandQty))
            && (casingType != "Standard" ==> r[lead] == Line(profiling, 1.0))
    ensures missing == WithoutCasing && casing != TeethPart && casing != bandName && casing != profiling ==>
            forall l :: l in r ==> l.name != casing
  {
    var first := if missing != WithoutCasing then [Line(CasingItem(casing, missing), casingQty)] else [];
    var teethLine := if teeth != "" then [Line(TeethPart, teethQty)] else [];
    if casingType == "Standard" then first + teethLine + (if band != "" then [Line(bandName, bandQty)] else [])
    else first + teethLine + [Line(profiling, 1.0)]
  }

  /** `_get_pile_casing_type_components`, growing the list as the source does. */
  method TypeComponents(missing: string, casingType: string, profiling: string, casing: string, casingQty: real,
                        teeth: string, teethQty: real, band: string, bandName: string, bandQty: real)
    returns (r: seq<Line>)
    ensures r == TypeLines(missing, casingType, profiling, casing, casingQty, teeth, teethQty, band, bandName, bandQty)
  {
    r := if missing != WithoutCasing then [Line(CasingItem(casing, missing), casingQty)] else [];
    if teeth != "" {
      r := r + [Line(TeethPart, teethQty)];
    }
    if casingType == "Standard" {
      if band != "" {
        r := r + [Line(bandName, bandQty)];
      }
    } else {
      r := r + [Line(profiling, 1.0)];
    }
  }

  /** A casing that is not stocked keeps its lines, only the casing's name changes. */
  lemma NonStockOnlyRenames(casingType: string, profiling: string, casing: string, casingQty: real,
                            teeth: string, teethQty: real, band: string, bandName: string, bandQty: real)
    ensures var s := TypeLines("", casingType, profiling, casing, casingQty, teeth, teethQty, band, bandName, bandQty);
            var n := TypeLines(NonStock, casingType, profiling, casing, casingQty, teeth, teethQty, band, bandName, bandQty);
            |n| == |s| && n[0] == Line(casing + " - Non-Stocked", casingQty) && n[1..] == s[1..]
  {
  }

  /** The casing's outside diameter as `f"{od}"` prints it: an `int` without a wall, a float with one. */
  function OdText(sc: Scan): (r: string)
    ensures sc.wallMm.None? ==> r == NatText(if sc.odDigits.Some? then ParseNat(sc.odDigits.value) else 0)
    ensures sc.wallMm.Some? ==>
      var d := if sc.odDigits.Some? then ParseNat(sc.odDigits.value) else 0;
      TextValue(WholeText(AddScaled(d, 2, TokenDecimal(sc.wallMm.value))),
                FracText(AddScaled(d, 2, TokenDecimal(sc.wallMm.value))))
        == d as real + 2.0 * StockCasing.WallValue(sc.wallMm.value)
  {
    var d := if sc.odDigits.Some? then ParseNat(sc.odDigits.value) else 0;
    if sc.wallMm.None? then NatText(d)
    else
      var od := AddScaled(d, 2, TokenDecimal(sc.wallMm.value));
      FloatTextValue(od);
      FloatText(od)
  }

  /** `_permanent_casing_combination` of bom_automation_v2.py. */
  function PermanentCasing(sc: Scan): string
  {
    "Permanent Casing - OD" + OdText(sc) + " WT" + (if sc.wallMm.Some? then TokenText(sc.wallMm.value) else "0")
  }

  /** With a whole wall the diameter prints as a float: a 1200mm casing with a 12mm wall is `OD1224.0 WT12`. */
  lemma PermanentCasingFloat(sc: Scan, d: nat, w: nat)
    requires sc.odDigits.Some? && ParseNat(sc.odDigits.value) == d
    requires sc.wallMm.Some? && sc.wallMm.value == Token(NatText(w), "")
    ensures PermanentCasing(sc) == "Permanent Casing - OD" + NatText(d + 2 * w) + ".0 WT" + NatText(w)
  {
    var t := sc.wallMm.value;
    NatTextRoundTrip(w);
    assert t.whole + t.frac == NatText(w);
    assert TokenDecimal(t) == Decimal(w, 0);
    assert AddScaled(d, 2, Decimal(w, 0)) == Whole(d + 2 * w);
    WholeFloatText(d + 2 * w);
  }

  /** The profiling line's text: the inside diameter and the chosen attributes, in order. */
  function Profiling(a: Attrs, sc: Scan): (r: string)
  {
    var od := if sc.odDigits.Some? then [sc.odDigits.value + " Inside Diameter"] else [];
    var rest := [Some(a.wall), Some(a.band), Some(a.bandType), Some(a.lockType), Some(a.customization)];
    "Profiling - Pile Casing Stock " + Join(od + StockCasing.Given(rest), ", ")
  }

  /** The drive band's flat bar, its width and thickness printed as floats (`0.0` unmatched). */
  function FlatBar(m: Option<(nat, nat)>): (r: string)
    ensures m.Some? ==> r == "Flat Bar - " + NatText(m.value.0) + ".0mm x " + NatText(m.value.1) + ".0mm"
    ensures m.None? ==> r == "Flat Bar - 0.0mm x 0.0mm"
  {
    var (w, t) := if m.Some? then m.value else (0, 0);
    WholeFloatText(w);
    WholeFloatText(t);
    assert NatText(0) == "0";
    "Flat Bar - " + FloatText(Whole(w)) + "mm x " + FloatText(Whole(t)) + "mm"
  }

  /** The drive band's length: ID aligned for an "ID Aligned Drive Band", overlapped otherwise. */
  function DriveQty(bandType: string, insideDia: real, wall: real, x: Option<nat>): (r: real)
    ensures IsHundredths(r)
    ensures var t := if x.Some? then x.value else 0;
            var g := StockCasing.Girth(if bandType == "ID Aligned Drive Band" then StockCasing.IdAlign else StockCasing.Overlap,
                                       insideDia, wall, t);
            -0.005 <= r - g <= 0.005
  {
    var t := if x.Some? then x.value else 0;
    if bandType == "ID Aligned Drive Band" then Round2(StockCasing.Girth(StockCasing.IdAlign, insideDia, wall, t))
    else Round2(StockCasing.Girth(StockCasing.Overlap, insideDia, wall, t))
  }

  /** On a non-negative wall an overlapped band is never shorter than an ID-aligned one. */
  lemma OverlappedNotShorter(insideDia: real, wall: real, x: Option<nat>)
    requires wall >= 0.0
    ensures DriveQty("ID Aligned Drive Band", insideDia, wall, x) <= DriveQty("Overlapped Drive Band", insideDia, wall, x)
  {
    var t := if x.Some? then x.value else 0;
    assert StockCasing.Girth(StockCasing.IdAlign, insideDia, wall, t) <= StockCasing.Girth(StockCasing.Overlap, insideDia, wall, t);
    Round2Monotone(StockCasing.Girth(StockCasing.IdAlign, insideDia, wall, t),
                   StockCasing.Girth(StockCasing.Overlap, insideDia, wall, t));
  }

  function CasingQty(sc: Scan): real
  {
    if sc.casingLength.Some? then sc.casingLength.value else 0.0
  }

  function TeethQty(sc: Scan): real
  {
    if sc.teethCount.Integer? then sc.teethCount.n as real else 0.0
  }

  /**
   * `_get_casing_component` of bom_automation_v2.py: a diameter or wall
   * without a number raises `AttributeError`, a teeth count with a point
   * `ValueError`; otherwise the type's lines with the drive band's flat bar.
   */
  method CasingComponent(a: Attrs, sc: Scan, casing: string, profiling: string) returns (r: Result<seq<Line>>)
    ensures r.Fail? <==> sc.insideDia.None? || sc.wallThickness.None? || sc.teethCount == StockCasing.NotInteger
    ensures r.Fail? ==> r.error == (if sc.insideDia.None? || sc.wallThickness.None? then AttributeError else ValueError)
    ensures r.Ok? ==> r.value == TypeLines(a.missing, a.casingType, profiling, casing, CasingQty(sc), a.teeth, TeethQty(sc),
                                           a.band, FlatBar(sc.bandFlat),
                                           DriveQty(a.bandType, sc.insideDia.value, sc.wallThickness.value, sc.bandX))
  {
    if sc.insideDia.None? || sc.wallThickness.None? {
      return Fail(AttributeError);
    }
    if sc.teethCount == StockCasing.NotInteger {
      return Fail(ValueError);
    }
    var lines := TypeComponents(a.missing, a.casingType, profiling, casing, CasingQty(sc), a.teeth, TeethQty(sc),
                                a.band, FlatBar(sc.bandFlat),
                                DriveQty(a.bandType, sc.insideDia.value, sc.wallThickness.value, sc.bandX));
    return Ok(lines);
  }

  /** The validation error naming the unavailable casing. */
  function Unavailable(casing: string): PyError
  {
    ValidationError("Oops! The '" + casing + "' is not available.\n"
                    + "Please select the available casing attributes to proceed with BOM creation.")
  }

  /**
   * `_get_pile_casing_components` of bom_automation_v2.py: it raises the
   * validation error exactly when a Standard or Segmental casing is neither
   * flagged as unavailable nor found in the catalogue.
   */
  method PileCasingComponents(a: Attrs, sc: Scan, inCatalogue: string -> bool) returns (r: Result<seq<Line>>)
    ensures r.Fail? && r.error.ValidationError? <==>
            (a.casingType == "Standard" || a.casingType == "Segmental") && a.missing == "" && !inCatalogue(PermanentCasing(sc))
    ensures r.Fail? && r.error.ValidationError? ==> r.error == Unavailable(PermanentCasing(sc))
    ensures r.Ok? ==> sc.insideDia.Some? && sc.wallThickness.Some? && sc.teethCount != StockCasing.NotInteger
    ensures r.Ok? ==> r.value == TypeLines(a.missing, a.casingType, Profiling(a, sc), PermanentCasing(sc), CasingQty(sc),
                                           a.teeth, TeethQty(sc), a.band, FlatBar(sc.bandFlat),
                                           DriveQty(a.bandType, sc.insideDia.value, sc.wallThickness.value, sc.bandX))
  {
    var casing := PermanentCasing(sc);
    if (a.casingType == "Standard" || a.casingType == "Segmental") && a.missing == "" && !inCatalogue(casing) {
      return Fail(Unavailable(casing));
    }
    r := CasingComponent(a, sc, casing, Profiling(a, sc));
  }

  /**
   * `_get_casing_component` of bom_automation_v1.py: as in bom_automation_v2.py
   * except that a drive band without an `x<digits>t` thickness raises
   * `AttributeError`, after the diameter and the wall are read.
   */
  method CasingComponentV1(a: Attrs, sc: Scan, casing: string, profiling: string) returns (r: Result<seq<Line>>)
    ensures r.Fail? <==> sc.insideDia.None? || sc.wallThickness.None? || sc.bandX.None?
                         || sc.teethCount == StockCasing.NotInteger
    ensures r.Fail? ==> r.error == (if sc.insideDia.None? || sc.wallThickness.None? || sc.bandX.None? then AttributeError
                                    else ValueError)
    ensures r.Ok? ==> r.value == TypeLines(a.missing, a.casingType, profiling, casing, CasingQty(sc), a.teeth, TeethQty(sc),
                                           a.band, FlatBar(sc.bandFlat),
                                           DriveQty(a.bandType, sc.insideDia.value, sc.wallThickness.value, sc.bandX))
  {
    if sc.insideDia.None? || sc.wallThickness.None? || sc.bandX.None? {
      return Fail(AttributeError);
    }
    if sc.teethCount == StockCasing.NotInteger {
      return Fail(ValueError);
    }
    var lines := TypeComponents(a.missing, a.casingType, profiling, casing, CasingQty(sc), a.teeth, TeethQty(sc),
                                a.band, FlatBar(sc.bandFlat),
                                DriveQty(a.bandType, sc.insideDia.value, sc.wallThickness.value, sc.bandX));
    return Ok(lines);
  }
}
