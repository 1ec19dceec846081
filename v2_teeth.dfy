/**
 * The teeth functions of bom_automation_v2.py (`_get_teeth_dual_taper_rock`,
 * `_get_teeth_zed`, `_get_teeth_triad_rock`, `_get_teeth_clay_shale`,
 * `_get_teeth_blade`). bom_automation_v1.py and bp_bom_automation.py carry
 * the same functions, except for the blade pilot support of
 * bp_bom_automation.py (`BoredPileBp.BladeTeeth`).
 *
 * Unlike product_product.py these functions do not look at the pilot: the
 * tooth type alone fixes the pilot kit, the support diameter subtracted in
 * the teeth count is a constant of the tooth type, and every list has five
 * (four for ZED) entries or none at all.
 */
module AugerTeethV2 {
  import opened BomWrappers
  import opened PyNum
  import opened Bom
  import AugerTeeth

  /** A tooth type: the support diameter and tooth spacing of its count, its two part names and its pilot kit. */
  datatype RockSpec = RockSpec(support: int, divisor: int, tooth: string, holder: string, kit: AugerTeeth.PilotKit)

  const Hex19Kit := AugerTeeth.HexKit("Rock Pilot suit 19mm Teeth 44mm Hex - RH / LH")
  const Hex22Kit := AugerTeeth.HexKit("Rock Pilot suit 22mm Teeth 44mm Hex - RH / LH")

  const DualTaperSpecs: seq<(string, RockSpec)> := [
    ("19mm BK17 Teeth", RockSpec(78, 40, "BSK17 - 19.4mm Shank Teeth", "BHR164 - 19.4mm Block Holder", Hex19Kit)),
    ("22mm BC86 Teeth", RockSpec(78, 42, "BC86 - 22mm Shank Teeth BETEK", "BHR176 - 22mm Block Tooth Holder", Hex22Kit)),
    ("22mm BC05 Teeth", RockSpec(78, 42, "BC05 - 22mm Shank Teeth BETEK", "BHR176 - 22mm Block Tooth Holder", Hex22Kit)),
    ("25mm BTK03 Teeth", RockSpec(150, 44, "BTK03TB - 25mm Shank Teeth", "BHR31 - 25mm Block Tooth Holder",
                                  AugerTeeth.Square75Kit)),
    ("38/30 BKH105 Teeth", RockSpec(200, 66, "BKH105TB - 38/30mm Shank Teeth", "BHR38 - 38/30mm Block Tooth Holder",
                                    AugerTeeth.Square100Kit)),
    ("38/30 BFZ162 Teeth", RockSpec(200, 66, "BKH105TB - 38/30mm Shank Teeth", "BHR38 - 38/30mm Block Tooth Holder",
                                    AugerTeeth.Square100Kit))
  ]

  /** Every dual/taper tooth type has a positive spacing and a named tooth. */
  lemma DualTaperSpacing(teeth: string)
    requires HasKey(DualTaperSpecs, teeth)
    ensures Get(DualTaperSpecs, teeth).value.divisor > 0 && Get(DualTaperSpecs, teeth).value.tooth != ""
  {
  }

  /**
   * `_get_teeth_dual_taper_rock`: for a listed tooth type the odd
   * `_get_teeth_qty` count of teeth, four fewer holders, and the pilot, its
   * support and its end cap one each; nothing for any other tooth type.
   */
  function DualTaperTeeth(diameter: int, teeth: string): (r: seq<Line>)
    ensures r == [] <==> !HasKey(DualTaperSpecs, teeth)
    ensures r != [] ==>
      var spec := Get(DualTaperSpecs, teeth).value;
      |r| == 5
      && r[0] == Line(spec.tooth, AugerTeeth.OddTeethQty(diameter, spec.support, AugerTeeth.Clearance(diameter), spec.divisor) as real)
      && IsOddCount(r[0].qty) && Counted(r[0])
      && r[1] == Line(spec.holder, r[0].qty - 4.0)
      && r[2..] == AugerTeeth.KitLines(spec.kit) && |AugerTeeth.KitLines(spec.kit)| == 3
  {
    match Get(DualTaperSpecs, teeth)
    case None => []
    case Some(spec) =>
      DualTaperSpacing(teeth);
      var q := AugerTeeth.OddTeethQty(diameter, spec.support, AugerTeeth.Clearance(diameter), spec.divisor);
      [Line(spec.tooth, q as real), Line(spec.holder, (q - 4) as real)] + AugerTeeth.KitLines(spec.kit)
  }

  /** Python's `x % 2 == 0` on a float holds exactly for the even whole numbers. */
  lemma FMod2Zero(x: real)
    ensures FMod2(x) == 0.0 <==> IsEvenCount(x)
  {
    var k := Floor(x / 2.0);
    if FMod2(x) == 0.0 {
      assert x == 2.0 * k as real;
      assert x.Floor == 2 * k;
    }
    if IsEvenCount(x) {
      var n := x.Floor;
      assert x / 2.0 == (n / 2) as real;
      assert k == n / 2;
    }
  }

  /**
   * The ZED parity rule as written: 1 is added to a count that is an even
   * whole number; the count is never rounded, so it stays a fraction when the
   * division leaves one.
   */
  function ZedParity(x: real): (r: real)
    ensures IsEvenCount(x) ==> r == x + 1.0 && IsOddCount(r)
    ensures !IsEvenCount(x) ==> r == x
    ensures !IsEvenCount(r)
  {
    FMod2Zero(x);
    if FMod2(x) == 0.0 then
      EvenThenOdd(x);
      x + 1.0
    else x
  }

  /** The unrounded ZED count: `(diameter - od - clearance) / spacing * 2`. */
  function ZedRaw(diameter: int, tubeOd: int, divisor: int): real
    requires divisor > 0
  {
    (diameter - tubeOd - AugerTeeth.Clearance(diameter)) as real / divisor as real * 2.0
  }

  const ZedSpecs: seq<(string, AugerTeeth.ToothSpec)> := [
    ("22mm BC05 Teeth", AugerTeeth.ToothSpec(42, "BC05 - 22mm Shank Teeth BETEK", "BHR176 - 22mm Block Tooth Holder")),
    ("25mm BTK03 Teeth", AugerTeeth.ToothSpec(44, "BTK03TB - 25mm Shank Teeth", "BHR31 - 25mm Block Tooth Holder")),
    ("38/30 BKH105 Teeth", AugerTeeth.ToothSpec(66, "BKH105TB - 38/30mm Shank Teeth", "BHR38 - 38/30mm Block Tooth Holder")),
    ("38/30 BFZ162 Teeth", AugerTeeth.ToothSpec(66, "BKH105TB - 38/30mm Shank Teeth", "BHR38 - 38/30mm Block Tooth Holder"))
  ]

  lemma ZedSpacing(teeth: string)
    requires HasKey(ZedSpecs, teeth)
    ensures Get(ZedSpecs, teeth).value.divisor > 0
  {
  }

  /**
   * `_get_teeth_zed`, given the `OD` number of the centre tube (0 without
   * one): for a listed tooth type a teeth count that is never an even whole
   * number, as many holders, half as many weld-on carbide buttons, and the
   * flight stiffener; nothing (not even the stiffener) for any other type.
   */
  function ZedTeeth(diameter: int, tubeOd: int, teeth: string): (r: seq<Line>)
    ensures r == [] <==> !HasKey(ZedSpecs, teeth)
    ensures r != [] ==>
      var spec := Get(ZedSpecs, teeth).value;
      |r| == 4
      && r[0] == Line(spec.tooth, ZedParity(ZedRaw(diameter, tubeOd, spec.divisor)))
      && !IsEvenCount(r[0].qty)
      && r[1] == Line(spec.holder, r[0].qty)
      && r[2] == Line("BA13 - Weld on Button Carbide", r[0].qty / 2.0)
      && r[3] == AugerTeeth.ZedStiffener(diameter) && r[3].qty == 2.0
      && (r[3].name == "ZED Flight Stiffener (Under 600mm)" <==> diameter < 600)
  {
    match Get(ZedSpecs, teeth)
    case None => []
    case Some(spec) =>
      ZedSpacing(teeth);
      var q := ZedParity(ZedRaw(diameter, tubeOd, spec.divisor));
      [Line(spec.tooth, q), Line(spec.holder, q), Line("BA13 - Weld on Button Carbide", q / 2.0),
       AugerTeeth.ZedStiffener(diameter)]
  }

  /**
   * The ZED count as evidently intended by its "make it odd" rule: rounded
   * first, like every other teeth count, then made odd.
   */
  function ZedCountIntended(x: real): (r: int)
    ensures IsOdd(r)
    ensures -0.5 <= r as real - x <= 1.5
  {
    var n := Round(x);
    if n % 2 == 0 then n + 1 else n
  }

  /**
   * A 600mm ZED auger on a 150mm centre tube with BC05 teeth: 860/42 teeth,
   * not a whole number, where the intended count is 21.
   */
  lemma ZedFractionalExample()
    ensures ZedRaw(600, 150, 42) == 860.0 / 42.0
    ensures ZedTeeth(600, 150, "22mm BC05 Teeth")[0].qty == 860.0 / 42.0
    ensures (860.0 / 42.0).Floor as real != 860.0 / 42.0
    ensures ZedCountIntended(860.0 / 42.0) == 21
  {
    assert Get(ZedSpecs, "22mm BC05 Teeth") == Some(ZedSpecs[0].1);
    assert 20.0 <= 860.0 / 42.0 < 21.0;
    assert (860.0 / 42.0).Floor == 20;
    RoundUnique(860.0 / 42.0, 20);
  }

  const TriadTooth := "22mm BC86 Teeth"

  /** `_get_teeth_triad_rock`'s count: `(diameter - 78 - clearance) / 84 * 3 + 4`, rounded, then made odd. */
  function TriadQty(diameter: int): (r: int)
    ensures IsOdd(r)
    ensures -0.5 <= r as real - AugerTeeth.TriadRaw(diameter, 78, AugerTeeth.Clearance(diameter), 84) <= 1.5
    ensures r == AugerTeeth.TriadTeethQty(diameter, 78, AugerTeeth.Clearance(diameter), 84)
            || r == AugerTeeth.TriadTeethQty(diameter, 78, AugerTeeth.Clearance(diameter), 84) + 1
  {
    var q := AugerTeeth.TriadTeethQty(diameter, 78, AugerTeeth.Clearance(diameter), 84);
    MadeOdd(q);
    if q % 2 == 0 then q + 1 else q
  }

  /**
   * `_get_teeth_triad_rock`: `None` unless the teeth are BC86; then an odd
   * teeth count, four fewer holders and the 22mm hex pilot kit.
   */
  function TriadTeeth(diameter: int, teeth: string): (r: Option<seq<Line>>)
    ensures r.None? <==> teeth != TriadTooth
    ensures r.Some? ==>
      |r.value| == 5
      && r.value[0] == Line("BC86 - 22mm Shank Teeth BETEK", TriadQty(diameter) as real)
      && IsOddCount(r.value[0].qty)
      && r.value[1] == Line("BHR176 - 22mm Block Tooth Holder", r.value[0].qty - 4.0)
      && r.value[2..] == AugerTeeth.KitLines(Hex22Kit)
  {
    if teeth != TriadTooth then None
    else
      var q := TriadQty(diameter);
      Some([Line("BC86 - 22mm Shank Teeth BETEK", q as real), Line("BHR176 - 22mm Block Tooth Holder", (q - 4) as real)]
           + AugerTeeth.KitLines(Hex22Kit))
  }

  const FishtailKit := AugerTeeth.HexKit("Auger Pilot - Hex Auger Torque Fishtail")

  /** The AR150 teeth count and the holder of the four listed diameters. */
  const ClayDiameters: seq<(int, (int, string))> := [
    (300, (4, "300mm Clay Shale Teeth Holder")),
    (400, (8, "400mm Clay Shale Teeth Holder")),
    (450, (8, "450mm Clay Shale Teeth Holder")),
    (600, (2, "600mm Clay Shale Teeth Holder"))
  ]

  /**
   * `_get_teeth_clay_shale`: for 300, 400, 450 and 600mm the AR150 teeth, two
   * holders and the hex fishtail pilot kit; nothing for any other diameter.
   * Neither the teeth nor the pilot attribute takes part.
   */
  function ClayShaleTeeth(diameter: int): (r: seq<Line>)
    ensures r == [] <==> !HasKey(ClayDiameters, diameter)
    ensures r != [] ==>
      |r| == 5
      && r[0] == Line("AR150 Teeth", Get(ClayDiameters, diameter).value.0 as real)
      && r[1] == Line(Get(ClayDiameters, diameter).value.1, 2.0)
      && r[2..] == AugerTeeth.KitLines(FishtailKit)
  {
    match Get(ClayDiameters, diameter)
    case None => []
    case Some(c) => [Line("AR150 Teeth", c.0 as real), Line(c.1, 2.0)] + AugerTeeth.KitLines(FishtailKit)
  }

  const FishtailPilot := "Hex Auger Torque Fishtail Pilot"

  /** product_product.py's AR150 list at a listed diameter with the hex fishtail pilot. */
  lemma ProductClayFixed(diameter: int)
    requires HasKey(AugerTeeth.ClayDiameters, diameter)
    ensures var c := Get(AugerTeeth.ClayDiameters, diameter).value;
      AugerTeeth.ClayShaleTeethLines(diameter, "AR150 Teeth", FishtailPilot)
      == [Line("AR150 Teeth", c.0 as real), Line(c.1, 2.0)] + AugerTeeth.KitLines(FishtailKit)
  {
    assert !HasKey(AugerTeeth.ClaySteppedSpecs, "AR150 Teeth");
    assert AugerTeeth.ClayBranchOf(diameter, "AR150 Teeth") == AugerTeeth.Fixed;
    assert Get(AugerTeeth.ClayPilots, FishtailPilot) == Some(FishtailKit);
    assert AugerTeeth.KitPartsOf(AugerTeeth.ClayPilots, FishtailPilot) == AugerTeeth.KitLines(FishtailKit);
    assert !HasKey(AugerTeeth.ClayThirdTeeth, FishtailPilot);
  }

  /** The two diameter tables agree except for the 600mm teeth count. */
  lemma ClayTablesAgree(diameter: int)
    requires diameter in {300, 400, 450, 600}
    ensures HasKey(ClayDiameters, diameter) && HasKey(AugerTeeth.ClayDiameters, diameter)
    ensures Get(ClayDiameters, diameter).value.1 == Get(AugerTeeth.ClayDiameters, diameter).value.1
    ensures diameter != 600 ==> Get(ClayDiameters, diameter) == Get(AugerTeeth.ClayDiameters, diameter)
    ensures diameter == 600 ==> Get(ClayDiameters, diameter).value.0 == 2 && Get(AugerTeeth.ClayDiameters, diameter).value.0 == 12
  {
    var i := if diameter == 300 then 0 else if diameter == 400 then 1 else if diameter == 450 then 2 else 3;
    assert ClayDiameters[i].0 == diameter && AugerTeeth.ClayDiameters[i].0 == diameter;
    GetFirst(ClayDiameters, i);
    GetFirst(AugerTeeth.ClayDiameters, i);
  }

  /**
   * With AR150 teeth and the hex fishtail pilot, the 300, 400 and 450mm lists
   * are product_product.py's; at 600mm this revision fits 2 teeth where
   * product_product.py fits 12.
   */
  lemma ClayShaleAgainstProduct(diameter: int)
    requires diameter in {300, 400, 450, 600}
    ensures |ClayShaleTeeth(diameter)| == 5
    ensures |AugerTeeth.ClayShaleTeethLines(diameter, "AR150 Teeth", FishtailPilot)| == 5
    ensures var pp := AugerTeeth.ClayShaleTeethLines(diameter, "AR150 Teeth", FishtailPilot);
      (diameter != 600 ==> ClayShaleTeeth(diameter) == pp)
      && (diameter == 600 ==> ClayShaleTeeth(diameter)[1..] == pp[1..]
                              && ClayShaleTeeth(diameter)[0].qty == 2.0 && pp[0].qty == 12.0)
  {
    ClayTablesAgree(diameter);
    ProductClayFixed(diameter);
    ClayShaleListed(diameter);
    var c := Get(AugerTeeth.ClayDiameters, diameter).value;
    var v := Get(ClayDiameters, diameter).value;
    var tail := [Line(c.1, 2.0)] + AugerTeeth.KitLines(FishtailKit);
    assert ClayShaleTeeth(diameter) == [Line("AR150 Teeth", v.0 as real)] + tail;
    assert AugerTeeth.ClayShaleTeethLines(diameter, "AR150 Teeth", FishtailPilot) == [Line("AR150 Teeth", c.0 as real)] + tail;
  }

  /** The AR150 list of a listed diameter, split after the teeth line. */
  lemma ClayShaleListed(diameter: int)
    requires HasKey(ClayDiameters, diameter)
    ensures var v := Get(ClayDiameters, diameter).value;
      ClayShaleTeeth(diameter) == [Line("AR150 Teeth", v.0 as real)] + ([Line(v.1, 2.0)] + AugerTeeth.KitLines(FishtailKit))
  {
    var v := Get(ClayDiameters, diameter).value;
    assert [Line("AR150 Teeth", v.0 as real), Line(v.1, 2.0)] == [Line("AR150 Teeth", v.0 as real)] + [Line(v.1, 2.0)];
  }

  /**
   * The blade parts of a listed diameter: teeth and holder two each, the
   * pilot named after the pilot attribute, the given support and no end cap.
   */
  function BladeLines(diameter: int, pilot: string, support: Line): (r: seq<Line>)
    ensures r == [] <==> !HasKey(AugerTeeth.BladeDiameters, diameter)
    ensures r != [] ==>
      |r| == 5 && r[0].qty == 2.0 && r[1].qty == 2.0 && r[2].qty == 1.0 && r[3] == support && r[4] == NoLine
      && (r[2].name == "Auger Pilot - Hex Auger Torque Fishtail" <==> pilot == FishtailPilot)
      && (r[2].name != "Auger Pilot - Hex Auger Torque Fishtail" ==> r[2].name == "Blade Auger Fishtail Pilot")
  {
    var name := if pilot == FishtailPilot then "Auger Pilot - Hex Auger Torque Fishtail"
                else "Blade Auger Fishtail Pilot";
    match Get(AugerTeeth.BladeDiameters, diameter)
    case None => []
    case Some(names) => [Line(names.0, 2.0), Line(names.1, 2.0), Line(name, 1.0), support, NoLine]
  }

  const PipeSupport := "Pipe - OD101mm WT4.0mm"

  /**
   * `_get_teeth_blade` as written: `pilot` is overwritten with the pilot's
   * part name before the support test compares it with the attribute value,
   * so the support is always a quarter of the OD101 pipe and the end cap
   * always `(None, 0)`.
   */
  function BladeTeeth(diameter: int, pilot: string): (r: seq<Line>)
    ensures r == [] <==> !HasKey(AugerTeeth.BladeDiameters, diameter)
    ensures r != [] ==> |r| == 5 && r[3] == Line(PipeSupport, 0.25) && r[4] == NoLine
  {
    BladeLines(diameter, pilot, Line(PipeSupport, 0.25))
  }

  /**
   * `_get_teeth_blade` as evidently intended: the hex fishtail pilot sits on
   * the hex pilot support, which has an end cap.
   */
  function BladeTeethIntended(diameter: int, pilot: string): (r: seq<Line>)
    ensures r == [] <==> !HasKey(AugerTeeth.BladeDiameters, diameter)
    ensures r != [] && pilot == FishtailPilot ==>
      |r| == 5 && r[3] == Line("Pilot Support - Hex", 1.0) && r[4] == Line("End Cap - Suit Hex Pilot Support", 1.0)
    ensures r != [] && pilot != FishtailPilot ==> r == BladeTeeth(diameter, pilot)
  {
    var lines := BladeLines(diameter, pilot, Line(PipeSupport, 0.25));
    if lines != [] && pilot == FishtailPilot then
      lines[..3] + [Line("Pilot Support - Hex", 1.0), Line("End Cap - Suit Hex Pilot Support", 1.0)]
    else lines
  }

  /** A 300mm blade auger with the hex fishtail pilot gets the pipe support and no end cap as written. */
  lemma BladeHexPilotExample()
    ensures BladeTeeth(300, FishtailPilot)[3] == Line(PipeSupport, 0.25)
    ensures BladeTeeth(300, FishtailPilot)[4] == NoLine
    ensures BladeTeethIntended(300, FishtailPilot)[3] == Line("Pilot Support - Hex", 1.0)
  {
  }
}
