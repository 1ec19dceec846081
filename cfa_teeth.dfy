/**
 * Teeth, tooth holders and pilot parts of a CFA (continuous flight auger)
 * lead auger (product_bom.py, `_get_cfa_coupling_teeth_at5` and the four
 * teeth functions it dispatches to, and `_get_cfa_zed_center_at6`).
 *
 * Each count is the auger diameter less the diameter taken by the pilot or
 * the centre tube and a 10mm clearance, divided by the spacing of the teeth.
 * Dual and Taper Rock move the count to the nearest odd number, ZED and
 * Clay/Shale push it up to an even number, Single Cut only rounds it.
 */
module CfaTeeth {
  import opened BomWrappers
  import opened PyNum
  import opened Bom
  import opened PyRegex

  /** A spacing between teeth in mm; every table entry has one above zero. */
  type Spacing = x: int | x > 0 witness 1

  /**
   * A set of teeth: the tooth and holder names, the diameter in mm that the
   * formula subtracts (0 where the pilot or the tube supplies it) and the
   * spacing.
   */
  datatype TeethSet = TeethSet(tooth: string, holder: string, od: int, spacing: Spacing)

  /** The clearance in mm every CFA teeth formula subtracts. */
  const Clearance := 10

  /**
   * `round_nearest_odd`: the rounded number when odd, otherwise the odd
   * neighbour on the side of the number, the lower one on a tie.
   */
  function RoundNearestOdd(x: real): (r: int)
    ensures IsOdd(r)
    ensures -1.0 <= r as real - x <= 1.0
  {
    var n := Round(x);
    if n % 2 == 1 then n
    else if x > n as real then n + 1
    else n - 1
  }

  /** No odd number is nearer to `x` than `round_nearest_odd(x)`. */
  lemma RoundNearestOddIsNearest(x: real, m: int)
    requires IsOdd(m)
    ensures Abs(RoundNearestOdd(x) as real - x) <= Abs(m as real - x)
  {
    var r := RoundNearestOdd(x);
    var n := Round(x);
    if m != r {
      assert m <= r - 2 || m >= r + 2;
      if n % 2 != 1 {
        assert -0.5 <= n as real - x <= 0.5;
        if x > n as real {
          assert m <= n - 1 || m >= n + 3;
        } else {
          assert m <= n - 3 || m >= n + 1;
        }
      }
    }
  }

  // ---------------------------------------------------------------- Dual and Taper Rock

  const DualTaperPilotOds: seq<(string, int)> := [
    ("19.4mm Teeth Pilot", 78),
    ("22mm Teeth Pilot", 78),
    ("25mm Teeth Pilot", 150),
    ("38/30 Teeth Pilot", 200)
  ]

  /** `_get_pilot_od`: the pilot support diameter in mm of a pilot, 0 for any other pilot. */
  function DualTaperPilotOd(pilot: string): (r: int)
    ensures r == 0 <==> !HasKey(DualTaperPilotOds, pilot)
    ensures r == 0 || r == 78 || r == 150 || r == 200
  {
    GetOr(DualTaperPilotOds, pilot, 0)
  }

  /** The unrounded count of the Dual/Taper `_get_teeth_qty`: `(dia - od - 10) / mm + 8`. */
  function DualTaperRaw(diameter: int, pilot: string, mm: Spacing): real
  {
    (diameter - DualTaperPilotOd(pilot) - Clearance) as real / mm as real + 8.0
  }

  /** The Dual/Taper `_get_teeth_qty`: the odd number nearest to the raw count. */
  function DualTaperCount(diameter: int, pilot: string, mm: Spacing): (r: int)
    ensures IsOdd(r)
    ensures -1.0 <= r as real - DualTaperRaw(diameter, pilot, mm) <= 1.0
  {
    RoundNearestOdd(DualTaperRaw(diameter, pilot, mm))
  }

  const DualTaperSets: seq<(string, TeethSet)> := [
    ("19.4mm BK17 Teeth", TeethSet("BSK17 - 19.4mm Shank Teeth", "BHR164 - 19.4mm Block Holder", 0, 40)),
    ("22mm BC86 Teeth", TeethSet("BC86TB - TEBCO 22mm Teeth ", "BHR176 - 22mm Block Tooth Holder", 0, 42)),
    ("22mm BC05 Teeth", TeethSet("BC05TB - 22mm Shank Teeth", "BHR176 - 22mm Block Tooth Holder", 0, 42)),
    ("25mm BTK03 Teeth w/ Flat Back Holder", TeethSet("BTK03TB - 25mm Shank Teeth", "TB25 - 25mm Flat Back Holder", 0, 44)),
    ("25mm BTK03 Teeth w/ Block Holder", TeethSet("BTK03TB - 25mm Shank Teeth", "BHR31 - 25mm Block Tooth Holder", 0, 44)),
    ("38/30 BKH105 Teeth", TeethSet("BKH105TB - 38/30mm Shank Teeth", "BHR38 - 38/30mm Block Tooth Holder", 0, 66))
  ]

  const DualTaperPilots: seq<(string, seq<Line>)> := [
    ("19.4mm Teeth Pilot", [
      Line("Rock Pilot suit 19mm Teeth 44mm Hex - RH / LH", 1.0),
      Line("Pilot Support - Hex", 1.0),
      Line("End Cap - Suit Hex Pilot Support", 1.0)]),
    ("22mm Teeth Pilot", [
      Line("Rock Pilot suit 22mm Teeth 44mm Hex - RH / LH", 1.0),
      Line("Pilot Support - Hex", 1.0),
      Line("End Cap - Suit Hex Pilot Support", 1.0)]),
    ("25mm Teeth Pilot", [
      Line("Rock Auger Pilot - 25mm Shank 75mm square", 1.0),
      Line("Pilot Support - 75mm Square", 1.0),
      Line("End Cap - Suit 75mm Square Pilot Support", 1.0)]),
    ("38/30 Teeth Pilot", [
      Line("Rock Auger Pilot - 38/30mm Shank 100mm Square", 1.0),
      Line("Pilot Support - 100mm Square", 1.0),
      Line("End Cap - Suit 100mm Square Pilot Support", 1.0)])
  ]

  /**
   * `_get_dual_taper_teeth`: the teeth and holders of the chosen set (none
   * for an unknown set), then the parts of the chosen pilot (none for an
   * unknown pilot). The teeth count is odd and there are four holders fewer
   * than teeth.
   */
  function DualTaperTeeth(diameter: int, teeth: string, pilot: string): (r: seq<Line>)
    ensures Get(DualTaperSets, teeth).None? ==> r == GetOr(DualTaperPilots, pilot, [])
    ensures Get(DualTaperSets, teeth).Some? ==>
      var s := Get(DualTaperSets, teeth).value;
      |r| >= 2 && r[2..] == GetOr(DualTaperPilots, pilot, [])
      && r[0] == Line(s.tooth, DualTaperCount(diameter, pilot, s.spacing) as real)
      && r[1] == Line(s.holder, r[0].qty - 4.0)
      && IsOddCount(r[0].qty)
  {
    var tail := GetOr(DualTaperPilots, pilot, []);
    match Get(DualTaperSets, teeth)
    case None => tail
    case Some(s) =>
      var q := DualTaperCount(diameter, pilot, s.spacing);
      [Line(s.tooth, q as real), Line(s.holder, (q - 4) as real)] + tail
  }

  // ---------------------------------------------------------------- ZED

  /** The unrounded count of the ZED `_get_teeth_qty`: `(dia - od - 10) / mm * 2`. */
  function ZedRaw(diameter: int, od: int, mm: Spacing): real
  {
    (diameter - od - Clearance) as real / mm as real * 2.0
  }

  /** The ZED `_get_teeth_qty`: the raw count rounded, plus one when that is odd. */
  function ZedCount(diameter: int, od: int, mm: Spacing): (r: int)
    ensures IsEven(r)
    ensures Round(ZedRaw(diameter, od, mm)) <= r <= Round(ZedRaw(diameter, od, mm)) + 1
  {
    var n := Round(ZedRaw(diameter, od, mm));
    if n % 2 == 0 then n else n + 1
  }

  const ZedSets: seq<(string, TeethSet)> := [
    ("22mm BC05 Teeth", TeethSet("BC05TB - 22mm Shank Teeth", "BHR176 - 22mm Block Tooth Holder", 0, 42)),
    ("25mm BTK03 Teeth w/ Flat Back Holder", TeethSet("BTK03TB - 25mm Shank Teeth", "TB25 - 25mm Flat Back Holder", 0, 44)),
    ("25mm BTK03 Teeth w/ Block Holder", TeethSet("BTK03TB - 25mm Shank Teeth", "BHR31 - 25mm Block Tooth Holder", 0, 44)),
    ("38/30 BKH105 Teeth", TeethSet("BKH105TB - 38/30mm Shank Teeth", "BHR38 - 38/30mm Block Tooth Holder", 0, 66))
  ]

  const ButtonCarbide := "BA13 - Weld on Button Carbide"

  /**
   * `_get_zed_teeth`: the teeth, as many holders and half as many button
   * carbides as the 42mm spacing gives, for every set. The centre-tube
   * diameter is `''` when the tube name holds no `OD<n>`; the whole map is
   * computed before the lookup, so the subtraction then raises `TypeError`
   * whatever the set.
   */
  function ZedTeeth(diameter: int, teeth: string, tubeOd: Option<nat>): (r: Result<seq<Line>>)
    ensures r.Fail? <==> tubeOd.None?
    ensures r.Fail? ==> r.error == TypeError
    ensures r.Ok? && Get(ZedSets, teeth).None? ==> r.value == []
    ensures r.Ok? && Get(ZedSets, teeth).Some? ==>
      var s := Get(ZedSets, teeth).value;
      var od := tubeOd.value;
      |r.value| == 3
      && r.value[0] == Line(s.tooth, ZedCount(diameter, od, s.spacing) as real)
      && r.value[1] == Line(s.holder, r.value[0].qty)
      && IsEvenCount(r.value[0].qty)
      && r.value[2] == Line(ButtonCarbide, ZedCount(diameter, od, 42) as real / 2.0)
      && r.value[2].qty.Floor as real == r.value[2].qty
  {
    match tubeOd
    case None => Fail(TypeError)
    case Some(od) =>
      match Get(ZedSets, teeth)
      case None => Ok([])
      case Some(s) =>
        var q := ZedCount(diameter, od, s.spacing);
        var b := ZedCount(diameter, od, 42);
        EvenHalves(q);
        EvenHalves(b);
        Ok([Line(s.tooth, q as real), Line(s.holder, q as real), Line(ButtonCarbide, b as real / 2.0)])
  }

  /** An even count is a whole even quantity, and its half is whole too. */
  lemma EvenHalves(n: int)
    requires IsEven(n)
    ensures IsEvenCount(n as real)
    ensures (n as real / 2.0).Floor as real == n as real / 2.0
  {
    assert (n / 2) as real == n as real / 2.0;
  }

  // ---------------------------------------------------------------- Clay/Shale

  /** The unrounded count of the Clay/Shale and Single Cut `_get_teeth_qty`: `(dia - od - 10) / mm`. */
  function PlainRaw(diameter: int, od: int, mm: Spacing): real
  {
    (diameter - od - Clearance) as real / mm as real
  }

  /** The Clay/Shale `_get_teeth_qty`: the raw count rounded, plus one when that is odd. */
  function ClayCount(diameter: int, od: int, mm: Spacing): (r: int)
    ensures IsEven(r)
    ensures Round(PlainRaw(diameter, od, mm)) <= r <= Round(PlainRaw(diameter, od, mm)) + 1
  {
    var n := Round(PlainRaw(diameter, od, mm));
    if n % 2 == 0 then n else n + 1
  }

  const ClaySets: seq<(string, TeethSet)> := [
    ("AR150 Teeth", TeethSet("AR150 Teeth", "C87B Holder - suit AR150", 78, 80)),
    ("38/30 BFZ162 Teeth", TeethSet("BFZ162 (FZ70) 38/30mm step shank flat Teeth", "Phaser Teeth Holder", 150, 150)),
    ("FZ54 Teeth", TeethSet("FZ54 Mini Bauer Teeth", "Mini Bauer Holder", 200, 116))
  ]

  const ClayPilots: seq<(string, seq<Line>)> := [
    ("Hex Auger Torque Fishtail Pilot", [
      Line("Auger Pilot - Hex Auger Torque Fishtail", 1.0),
      Line("Pilot Support - Hex", 1.0),
      Line("End Cap - Suit Hex Pilot Support", 1.0)]),
    ("19.4mm Teeth Pilot", [
      Line("Rock Pilot suit 19mm Teeth 44mm Hex - RH / LH", 1.0),
      Line("Pilot Support - Hex", 1.0),
      Line("End Cap - Suit Hex Pilot Support", 1.0),
      Line("BSK17 - 19.4mm Shank Teeth", 4.0)]),
    ("22mm Teeth Pilot", [
      Line("Rock Pilot suit 22mm Teeth 44mm Hex - RH / LH", 1.0),
      Line("Pilot Support - Hex", 1.0),
      Line("End Cap - Suit Hex Pilot Support", 1.0),
      Line("BC86TB - TEBCO 22mm Teeth", 4.0)]),
    ("25mm Teeth Pilot", [
      Line("Rock Auger Pilot - 25mm Shank 75mm square", 1.0),
      Line("Pilot Support - 75mm Square", 1.0),
      Line("End Cap - Suit 75mm Square Pilot Support", 1.0),
      Line("BTK03TB - 25mm Shank Teeth", 4.0)]),
    ("38/30 Teeth Pilot", [
      Line("Rock Auger Pilot - 38/30mm Shank 100mm Square", 1.0),
      Line("Pilot Support - 100mm Square", 1.0),
      Line("End Cap - Suit 100mm Square Pilot Support", 1.0),
      Line("BKH105TB - 38/30mm Shank Teeth", 4.0)])
  ]

  /**
   * `_get_clay_shale_teeth`: an even number of teeth and as many holders of
   * the chosen set, then the chosen pilot's parts.
   */
  function ClayShaleTeeth(diameter: int, teeth: string, pilot: string): (r: seq<Line>)
    ensures Get(ClaySets, teeth).None? ==> r == GetOr(ClayPilots, pilot, [])
    ensures Get(ClaySets, teeth).Some? ==>
      var s := Get(ClaySets, teeth).value;
      |r| >= 2 && r[2..] == GetOr(ClayPilots, pilot, [])
      && r[0] == Line(s.tooth, ClayCount(diameter, s.od, s.spacing) as real)
      && r[1] == Line(s.holder, r[0].qty)
      && IsEvenCount(r[0].qty)
  {
    var tail := GetOr(ClayPilots, pilot, []);
    match Get(ClaySets, teeth)
    case None => tail
    case Some(s) =>
      var q := ClayCount(diameter, s.od, s.spacing);
      [Line(s.tooth, q as real), Line(s.holder, q as real)] + tail
  }

  // ---------------------------------------------------------------- Single Cut

  /** The Single Cut `_get_teeth_qty`: the raw count rounded, with no parity adjustment. */
  function SingleCutCount(diameter: int, od: int, mm: Spacing): (r: int)
    ensures -0.5 <= r as real - PlainRaw(diameter, od, mm) <= 0.5
  {
    Round(PlainRaw(diameter, od, mm))
  }

  const SingleCutSets: seq<(string, TeethSet)> := [
    ("38/30 BFZ162 Teeth", TeethSet("BFZ162 (FZ70) 38/30mm step shank flat Teeth", "Phaser Teeth Holder", 150, 150)),
    ("FZ54 Teeth", TeethSet("FZ54 Mini Bauer Teeth", "Mini Bauer Holder", 200, 116))
  ]

  const SingleCutPilots: seq<(string, seq<Line>)> := [
    ("25mm Teeth Pilot", [
      Line("Rock Auger Pilot - 25mm Shank 75mm square", 1.0),
      Line("Pilot Support - 75mm Square", 1.0),
      Line("End Cap - Suit 75mm Square Pilot Support", 1.0),
      Line("BTK03TB - 25mm Shank Teeth", 10.0),
      Line("BHR167 - 25mm Round Tooth Holder", 6.0)]),
    ("38/30 Teeth Pilot", [
      Line("Rock Auger Pilot - 38/30mm Shank 100mm Square", 1.0),
      Line("Pilot Support - 100mm Square", 1.0),
      Line("End Cap - Suit 100mm Square Pilot Support", 1.0),
      Line("BKH105TB - 38/30mm Shank Teeth", 10.0),
      Line("38/30mm Round Tooth Holder", 6.0)])
  ]

  /** `_get_single_cut_teeth`: the rounded number of teeth and as many holders, then the pilot's parts. */
  function SingleCutTeeth(diameter: int, teeth: string, pilot: string): (r: seq<Line>)
    ensures Get(SingleCutSets, teeth).None? ==> r == GetOr(SingleCutPilots, pilot, [])
    ensures Get(SingleCutSets, teeth).Some? ==>
      var s := Get(SingleCutSets, teeth).value;
      |r| >= 2 && r[2..] == GetOr(SingleCutPilots, pilot, [])
      && r[0] == Line(s.tooth, SingleCutCount(diameter, s.od, s.spacing) as real)
      && r[1] == Line(s.holder, r[0].qty)
  {
    var tail := GetOr(SingleCutPilots, pilot, []);
    match Get(SingleCutSets, teeth)
    case None => tail
    case Some(s) =>
      var q := SingleCutCount(diameter, s.od, s.spacing);
      [Line(s.tooth, q as real), Line(s.holder, q as real)] + tail
  }

  /**
   * The parity rules differ: at 610mm the 38/30 BFZ162 set gets three teeth
   * on a Single Cut auger and four on a Clay/Shale auger.
   */
  lemma SingleCutKeepsOddCount()
    ensures SingleCutCount(610, 150, 150) == 3
    ensures ClayCount(610, 150, 150) == 4
  {
    assert PlainRaw(610, 150, 150) == 3.0;
    RoundUnique(3.0, 3);
  }

  // ---------------------------------------------------------------- dispatch

  const DualTaperLeads: seq<string> := ["Dual Rock", "Taper Rock"]
  const ZedLeads: seq<string> := ["ZED 50mm", "ZED 40mm", "ZED 32mm", "ZED 25mm"]

  /** The items of `_get_cfa_coupling_teeth_at5`: a list of lines, or the bare `(None, 0)` pair. */
  datatype TeethItems = Items(lines: seq<Line>) | NoTeeth

  /**
   * `_get_cfa_coupling_teeth_at5`: the lead type chooses the teeth function;
   * the ZED teeth take the centre tube's `OD<n>`. Any other lead type gets
   * the `(None, 0)` pair itself rather than a list.
   */
  function TeethAndPilot(diameter: int, centreTube: string, leadType: string, teeth: string, pilot: string)
    : (r: Result<TeethItems>)
    ensures r.Fail? <==> leadType in ZedLeads && SearchNumber(centreTube, "OD").None?
    ensures r.Fail? ==> r.error == TypeError
    ensures r == Ok(NoTeeth) <==>
      leadType !in DualTaperLeads && leadType !in ZedLeads && leadType != "Clay/Shale" && leadType != "Single Cut"
    ensures leadType in DualTaperLeads ==> r == Ok(Items(DualTaperTeeth(diameter, teeth, pilot)))
    ensures leadType == "Clay/Shale" ==> r == Ok(Items(ClayShaleTeeth(diameter, teeth, pilot)))
    ensures leadType == "Single Cut" ==> r == Ok(Items(SingleCutTeeth(diameter, teeth, pilot)))
    ensures leadType in ZedLeads && r.Ok? ==>
      r == Ok(Items(ZedTeeth(diameter, teeth, SearchNumber(centreTube, "OD")).value))
  {
    if leadType in DualTaperLeads then Ok(Items(DualTaperTeeth(diameter, teeth, pilot)))
    else if leadType in ZedLeads then
      match ZedTeeth(diameter, teeth, SearchNumber(centreTube, "OD"))
      case Fail(e) => Fail(e)
      case Ok(lines) => Ok(Items(lines))
    else if leadType == "Clay/Shale" then Ok(Items(ClayShaleTeeth(diameter, teeth, pilot)))
    else if leadType == "Single Cut" then Ok(Items(SingleCutTeeth(diameter, teeth, pilot)))
    else Ok(NoTeeth)
  }

  // ---------------------------------------------------------------- ZED centre

  const ZedCentres: seq<(string, string)> := [
    ("Hollow Bar - OD150mm ID120mm", "ZED Centre 150mm"),
    ("Hollow Bar - OD152mm WT 26mm", "ZED Centre 150mm"),
    ("Hollow Bar - OD152mm WT 33.5mm", "ZED Centre 150mm"),
    ("Hollow Bar - OD168mm WT 21.5mm", "ZED Centre 168mm"),
    ("Hollow Bar - OD168mm WT 29mm", "ZED Centre 168mm"),
    ("Hollow Bar - OD170mm ID140mm", "ZED Centre 168mm"),
    ("Hollow Bar - OD219mm WT 25mm", "ZED Centre 219mm"),
    ("Hollow bar - OD273mm WT14", "ZED Centre 273mm"),
    ("Hollow Bar - OD273mm WT 25mm", "ZED Centre 273mm"),
    ("Hollow Bar - OD273mm WT 32mm", "ZED Centre 273mm"),
    ("Pipe - OD168mm WT4.8mm", "ZED Centre 168mm"),
    ("Pipe - OD168mm WT6.4mm", "ZED Centre 168mm"),
    ("Pipe - OD168mm WT11mm", "ZED Centre 168mm"),
    ("Pipe - OD219mm WT12.7mm", "ZED Centre 219mm"),
    ("Pipe - OD273mm WT12.7mm", "ZED Centre 273mm")
  ]

  const StiffenerUnder600 := "ZED Flight Stiffener (Under 600mm)"
  const Stiffener600Up := "ZED Flight Stiffener (600mm+)"

  /**
   * `_get_cfa_zed_center_at6`: the tube's ZED centre (named "" for an
   * unlisted tube), then two flight stiffeners of the diameter's size.
   */
  function ZedCentre(centreTube: string, diameter: int): (r: seq<Line>)
    ensures |r| == 2
    ensures r[0] == Line(GetOr(ZedCentres, centreTube, ""), 1.0)
    ensures r[0].name == "" <==> !HasKey(ZedCentres, centreTube)
    ensures r[1].qty == 2.0
    ensures r[1].name == StiffenerUnder600 <==> diameter < 600
    ensures r[1].name == Stiffener600Up <==> diameter >= 600
  {
    var centre := GetOr(ZedCentres, centreTube, "");
    [Line(centre, 1.0), Line(if diameter < 600 then StiffenerUnder600 else Stiffener600Up, 2.0)]
  }
}
