/**
 * Teeth, tooth holders and pilot parts of a bored-pile auger
 * (product_product.py, `_get_teeth_*`; bom_automation_v2.py keeps a copy of
 * `round_to_nearest_even`).
 *
 * A teeth count comes from the auger diameter less the diameter taken by the
 * pilot support or centre tube and a clearance, divided by the spacing of the
 * teeth. Dual and Taper Rock force the count odd, ZED and the Clay/Shale
 * formula force it even, Triad Rock only rounds it.
 */
module AugerTeeth {
  import opened BomWrappers
  import opened PyNum
  import opened Bom
  import PyText

  const PilotSupportOds: seq<(string, int)> := [
    ("Pilot Support - Hex", 78),
    ("Pilot Support - 75mm Square", 150),
    ("Pilot Support - 100mm Square", 200)
  ]

  /** `_get_pilot_support_od`: the outside diameter of a pilot support in mm, 0 for any other name. */
  function PilotSupportOd(support: string): (r: int)
    ensures r == 0 <==> !HasKey(PilotSupportOds, support)
    ensures r == 0 || r == 78 || r == 150 || r == 200
  {
    GetOr(PilotSupportOds, support, 0)
  }

  /** The clearance in mm: 20 below a 1500mm diameter, 30 from 1500mm up. */
  function Clearance(diameter: int): int
  {
    if diameter < 1500 then 20 else 30
  }

  /** The unrounded count of `_get_teeth_qty`: `(diameter - mm1 - mm2) / mm3 + 8`. */
  function OddRaw(diameter: int, mm1: int, mm2: int, mm3: int): real
    requires mm3 > 0
  {
    (diameter - mm1 - mm2) as real / mm3 as real + 8.0
  }

  /** `_get_teeth_qty`: the raw count rounded, then made odd by adding one when even. */
  function OddTeethQty(diameter: int, mm1: int, mm2: int, mm3: int): (r: int)
    requires mm3 > 0
    ensures IsOdd(r)
    ensures -0.5 <= r as real - OddRaw(diameter, mm1, mm2, mm3) <= 1.5
  {
    var q := Round(OddRaw(diameter, mm1, mm2, mm3));
    if q % 2 == 0 then q + 1 else q
  }

  /** `_get_teeth_qty` is the least odd number not below the rounded raw count. */
  lemma OddTeethQtyIsLeast(diameter: int, mm1: int, mm2: int, mm3: int, k: int)
    requires mm3 > 0
    requires IsOdd(k) && k >= Round(OddRaw(diameter, mm1, mm2, mm3))
    ensures Round(OddRaw(diameter, mm1, mm2, mm3)) <= OddTeethQty(diameter, mm1, mm2, mm3) <= k
  {
  }

  /** The unrounded count of `_get_teeth_qty_even`: `(diameter - mm1 - mm2) / mm3 * 2`. */
  function EvenRaw(diameter: int, mm1: int, mm2: int, mm3: int): real
    requires mm3 > 0
  {
    (diameter - mm1 - mm2) as real / mm3 as real * 2.0
  }

  /** `_get_teeth_qty_even`: twice the rounded half of the raw count, an even number within 1 of it. */
  function EvenTeethQty(diameter: int, mm1: int, mm2: int, mm3: int): (r: int)
    requires mm3 > 0
    ensures IsEven(r)
    ensures -1.0 <= r as real - EvenRaw(diameter, mm1, mm2, mm3) <= 1.0
  {
    2 * Round(EvenRaw(diameter, mm1, mm2, mm3) / 2.0)
  }

  /** The unrounded count of `_get_teeth_qty_triad`: `(diameter - mm1 - mm2) / mm3 * 3 + 4`. */
  function TriadRaw(diameter: int, mm1: int, mm2: int, mm3: int): real
    requires mm3 > 0
  {
    (diameter - mm1 - mm2) as real / mm3 as real * 3.0 + 4.0
  }

  /** `_get_teeth_qty_triad`: the raw count rounded, with no parity adjustment. */
  function TriadTeethQty(diameter: int, mm1: int, mm2: int, mm3: int): (r: int)
    requires mm3 > 0
    ensures -0.5 <= r as real - TriadRaw(diameter, mm1, mm2, mm3) <= 0.5
  {
    Round(TriadRaw(diameter, mm1, mm2, mm3))
  }

  /**
   * `round_to_nearest_even` (product_product.py, bom_automation_v2.py): the
   * rounded number, or when that is odd the even neighbour on the side of the
   * number.
   */
  function RoundToNearestEven(x: real): (r: int)
    ensures IsEven(r)
    ensures -1.0 <= r as real - x <= 1.0
  {
    var n := Round(x);
    if n % 2 != 0 then (if x - n as real >= 0.0 then n + 1 else n - 1)
    else n
  }

  /** No even number is nearer to `x` than `round_to_nearest_even(x)`. */
  lemma RoundToNearestEvenIsNearest(x: real, k: int)
    requires IsEven(k)
    ensures Abs(RoundToNearestEven(x) as real - x) <= Abs(k as real - x)
  {
    var r := RoundToNearestEven(x);
    var n := Round(x);
    if k != r {
      assert k <= r - 2 || k >= r + 2;
      if n % 2 != 0 {
        assert -0.5 <= n as real - x <= 0.5;
      }
    }
  }

  /** The spacing and the two part names of a tooth type. */
  datatype ToothSpec = ToothSpec(divisor: int, tooth: string, holder: string)

  /** A pilot, its support and, for square and hex pilots, the support's end cap. */
  datatype PilotKit = PilotKit(pilot: Line, support: Line, endCap: Option<Line>)

  function KitLines(k: PilotKit): (r: seq<Line>)
    ensures |r| >= 2 && r[0] == k.pilot && r[1] == k.support
  {
    [k.pilot, k.support] + (if k.endCap.Some? then [k.endCap.value] else [])
  }

  function HexKit(pilot: string): PilotKit
  {
    PilotKit(Line(pilot, 1.0), Line("Pilot Support - Hex", 1.0), Some(Line("End Cap - Suit Hex Pilot Support", 1.0)))
  }

  const Square75Kit := PilotKit(Line("Rock Auger Pilot - 25mm Shank 75mm square", 1.0),
    Line("Pilot Support - 75mm Square", 1.0), Some(Line("End Cap - Suit 75mm Square Pilot Support", 1.0)))

  const Square100Kit := PilotKit(Line("Rock Auger Pilot - 38/30mm Shank 100mm Square", 1.0),
    Line("Pilot Support - 100mm Square", 1.0), Some(Line("End Cap - Suit 100mm Square Pilot Support", 1.0)))

  const BladePilotKit := PilotKit(Line("Blade Auger Fishtail Pilot", 1.0), Line("Pipe - OD101mm WT4.0mm", 0.25), None)

  const RockPilots: seq<(string, PilotKit)> := [
    ("19.4mm Teeth Pilot", HexKit("Rock Pilot suit 19mm Teeth 44mm Hex - RH / LH")),
    ("22mm Teeth Pilot", HexKit("Rock Pilot suit 22mm Teeth 44mm Hex - RH / LH")),
    ("25mm Teeth Pilot", Square75Kit),
    ("38/30 Teeth Pilot", Square100Kit)
  ]

  const DualTaperTeethSpecs: seq<(string, ToothSpec)> := [
    ("19.4mm BSK17 Teeth", ToothSpec(40, "BSK17 - 19.4mm Shank Teeth", "BHR164 - 19.4mm Block Holder")),
    ("22mm BC86 Teeth", ToothSpec(42, "BC86TB - TEBCO 22mm Teeth", "BHR176 - 22mm Block Tooth Holder")),
    ("22mm BC05 Teeth", ToothSpec(42, "BC05TB - 22mm Shank Teeth", "BHR176 - 22mm Block Tooth Holder")),
    ("25mm BTK03 Teeth w/ Flat Back Holder", ToothSpec(44, "BTK03TB - 25mm Shank Teeth", "TB25 - 25mm Flat Back Holder")),
    ("25mm BTK03 Teeth w/ Block Holder", ToothSpec(44, "BTK03TB - 25mm Shank Teeth", "BHR31 - 25mm Block Tooth Holder")),
    ("38/30 BKH105 Teeth", ToothSpec(66, "BKH105TB - 38/30mm Shank Teeth", "BHR38 - 38/30mm Block Tooth Holder"))
  ]

  /** The pilot lines of a pilot kit found in a table, none when the pilot is not in it. */
  function KitPartsOf(kits: seq<(string, PilotKit)>, pilot: string): (r: seq<Line>)
    ensures r == [] <==> !HasKey(kits, pilot)
  {
    match Get(kits, pilot)
    case None => []
    case Some(k) => KitLines(k)
  }

  /** The name of the pilot support among a kit's lines, "" without a kit. */
  function SupportNameOf(kits: seq<(string, PilotKit)>, pilot: string): string
  {
    match Get(kits, pilot)
    case None => ""
    case Some(k) => k.support.name
  }

  /** The dual/taper teeth count for a tooth type with spacing `divisor`. */
  function DualTaperQty(diameter: int, pilot: string, divisor: int): int
    requires divisor > 0
  {
    OddTeethQty(diameter, PilotSupportOd(SupportNameOf(RockPilots, pilot)), Clearance(diameter), divisor)
  }

  /**
   * `_get_teeth_dual_taper_rock`: for a known tooth type, an odd number of
   * teeth and four fewer holders, then the pilot's parts.
   */
  function DualTaperTeeth(diameter: int, teeth: string, pilot: string): (r: seq<Line>)
    ensures !HasKey(DualTaperTeethSpecs, teeth) ==> r == KitPartsOf(RockPilots, pilot)
    ensures HasKey(DualTaperTeethSpecs, teeth) ==>
      |r| == 2 + |KitPartsOf(RockPilots, pilot)|
      && IsOddCount(r[0].qty) && r[1].qty == r[0].qty - 4.0
      && r[2..] == KitPartsOf(RockPilots, pilot)
    ensures HasKey(DualTaperTeethSpecs, teeth) ==>
      var spec := Get(DualTaperTeethSpecs, teeth).value;
      spec.divisor > 0
      && r[0] == Line(spec.tooth, DualTaperQty(diameter, pilot, spec.divisor) as real)
      && r[1] == Line(spec.holder, (DualTaperQty(diameter, pilot, spec.divisor) - 4) as real)
  {
    var parts := KitPartsOf(RockPilots, pilot);
    match Get(DualTaperTeethSpecs, teeth)
    case None => parts
    case Some(spec) =>
      var q := DualTaperQty(diameter, pilot, spec.divisor);
      [Line(spec.tooth, q as real), Line(spec.holder, (q - 4) as real)] + parts
  }

  const ZedTeethSpecs: seq<(string, ToothSpec)> := [
    ("22mm BC05 Teeth", ToothSpec(42, "BC05TB - 22mm Shank Teeth", "BHR176 - 22mm Block Tooth Holder")),
    ("25mm BTK03 Teeth w/ Flat Back Holder", ToothSpec(44, "BTK03TB - 25mm Shank Teeth", "TB25 - 25mm Flat Back Holder")),
    ("25mm BTK03 Teeth w/ Block Holder", ToothSpec(44, "BTK03TB - 25mm Shank Teeth", "BHR31 - 25mm Block Tooth Holder")),
    ("38/30 BKH105 Teeth", ToothSpec(66, "BKH105TB - 38/30mm Shank Teeth", "BHR38 - 38/30mm Block Tooth Holder"))
  ]

  /** The ZED flight stiffener line, named by whether the diameter is under 600mm. */
  function ZedStiffener(diameter: int): Line
  {
    if diameter < 600 then Line("ZED Flight Stiffener (Under 600mm)", 2.0)
    else Line("ZED Flight Stiffener (600mm+)", 2.0)
  }

  /**
   * `_get_teeth_zed`, given the `OD` number read from the centre tube (0 when
   * it has none): for a known tooth type an even number of teeth, as many
   * holders and half as many weld-on carbide buttons; then always exactly one
   * flight stiffener line with quantity 2.
   */
  function ZedTeeth(diameter: int, tubeOd: int, teeth: string): (r: seq<Line>)
    ensures |r| >= 1 && r[|r| - 1] == ZedStiffener(diameter)
    ensures r[|r| - 1].qty == 2.0
    ensures (r[|r| - 1].name == "ZED Flight Stiffener (Under 600mm)") <==> diameter < 600
    ensures !HasKey(ZedTeethSpecs, teeth) ==> |r| == 1
    ensures HasKey(ZedTeethSpecs, teeth) ==>
      |r| == 4 && IsEvenCount(r[0].qty) && r[1].qty == r[0].qty
      && r[2] == Line("BA13 - Weld on Button Carbide", r[0].qty / 2.0)
  {
    var stiffener := [ZedStiffener(diameter)];
    match Get(ZedTeethSpecs, teeth)
    case None => stiffener
    case Some(spec) =>
      var q := EvenTeethQty(diameter, tubeOd, Clearance(diameter), spec.divisor);
      var weld := Round(q as real / 2.0);
      assert weld == q / 2 by {
        RoundUnique(q as real / 2.0, q / 2);
      }
      [Line(spec.tooth, q as real), Line(spec.holder, q as real),
       Line("BA13 - Weld on Button Carbide", weld as real)] + stiffener
  }

  const TriadTeethSpecs: seq<(string, ToothSpec)> := [
    ("22mm BC86 Teeth", ToothSpec(84, "BC86TB - TEBCO 22mm Teeth", "BHR176 - 22mm Block Tooth Holder"))
  ]

  const TriadPilots: seq<(string, PilotKit)> := [
    ("22mm Teeth Pilot", HexKit("Rock Pilot suit 22mm Teeth 44mm Hex - RH / LH"))
  ]

  /**
   * `_get_teeth_triad_rock`: for the BC86 tooth, the rounded triad count of
   * teeth (no parity rule) and four fewer holders, then the pilot's parts.
   */
  function TriadTeeth(diameter: int, teeth: string, pilot: string): (r: seq<Line>)
    ensures teeth != "22mm BC86 Teeth" ==> r == KitPartsOf(TriadPilots, pilot)
    ensures teeth == "22mm BC86 Teeth" ==>
      |r| == 2 + |KitPartsOf(TriadPilots, pilot)|
      && r[0].name == "BC86TB - TEBCO 22mm Teeth"
      && r[0].qty == TriadTeethQty(diameter, PilotSupportOd(SupportNameOf(TriadPilots, pilot)), Clearance(diameter), 84) as real
      && r[1].qty == r[0].qty - 4.0
  {
    var parts := KitPartsOf(TriadPilots, pilot);
    match Get(TriadTeethSpecs, teeth)
    case None => parts
    case Some(spec) =>
      var q := TriadTeethQty(diameter, PilotSupportOd(SupportNameOf(TriadPilots, pilot)), Clearance(diameter), spec.divisor);
      [Line(spec.tooth, q as real), Line(spec.holder, (q - 4) as real)] + parts
  }

  const ClaySteppedSpecs: seq<(string, ToothSpec)> := [
    ("38/30 BFZ162 Teeth", ToothSpec(75, "BFZ162 (FZ70) 38/30mm step shank flat Teeth", "Phaser Teeth Holder")),
    ("FZ54 Teeth", ToothSpec(58, "FZ54 Mini Bauer Teeth", "Mini Bauer Holder"))
  ]

  /** The fixed AR150 teeth count and the holder of the four listed diameters. */
  const ClayDiameters: seq<(int, (int, string))> := [
    (300, (4, "300mm Clay Shale Teeth Holder")),
    (400, (8, "400mm Clay Shale Teeth Holder")),
    (450, (8, "450mm Clay Shale Teeth Holder")),
    (600, (12, "600mm Clay Shale Teeth Holder"))
  ]

  const ClayPilots: seq<(string, PilotKit)> := [
    ("Hex Auger Torque Fishtail Pilot", HexKit("Auger Pilot - Hex Auger Torque Fishtail")),
    ("19.4mm Teeth Pilot", HexKit("Rock Pilot suit 19mm Teeth 44mm Hex - RH / LH")),
    ("22mm Teeth Pilot", HexKit("Rock Pilot suit 22mm Teeth 44mm Hex - RH / LH")),
    ("25mm Teeth Pilot", Square75Kit),
    ("38/30 Teeth Pilot", Square100Kit),
    ("Blade Auger Fishtail Pilot", BladePilotKit)
  ]

  /** The `teeth_3` entry of the rock pilots: a third tooth type, four of them. */
  const ClayThirdTeeth: seq<(string, Line)> := [
    ("19.4mm Teeth Pilot", Line("BSK17 - 19.4mm Shank Teeth", 4.0)),
    ("22mm Teeth Pilot", Line("BC86TB - TEBCO 22mm Teeth", 4.0)),
    ("25mm Teeth Pilot", Line("BTK03TB - 25mm Shank Teeth", 4.0)),
    ("38/30 Teeth Pilot", Line("BKH105TB - 38/30mm Shank Teeth", 4.0))
  ]

  /** Which branch of `_get_teeth_clay_shale` a selection takes. */
  datatype ClayBranch =
    | Stepped  // BFZ162 or FZ54 teeth, any diameter
    | Formula  // AR150 teeth below 300mm
    | Fixed    // AR150 teeth at 300, 400, 450 or 600mm
    | Unlisted // AR150 teeth at any other diameter: no lines at all

  function ClayBranchOf(diameter: int, teeth: string): ClayBranch
  {
    if HasKey(ClaySteppedSpecs, teeth) then Stepped
    else if diameter < 300 then Formula
    else if HasKey(ClayDiameters, diameter) then Fixed
    else Unlisted
  }

  /** The teeth and holder lines that precede the pilot parts. */
  function ClayHead(diameter: int, teeth: string, pilot: string): (r: seq<Line>)
    ensures ClayBranchOf(diameter, teeth) == Unlisted <==> r == []
    ensures ClayBranchOf(diameter, teeth) != Unlisted ==> |r| == 2
  {
    match Get(ClaySteppedSpecs, teeth)
    case Some(spec) =>
      var q := EvenTeethQty(diameter, PilotSupportOd(SupportNameOf(ClayPilots, pilot)), 20, spec.divisor);
      [Line(spec.tooth, q as real), Line(spec.holder, q as real)]
    case None =>
      if diameter < 300 then
        var q := EvenTeethQty(diameter, 78, 20, 40);
        [Line("AR150 Teeth", q as real), Line("C87B Holder - suit AR150", q as real)]
      else
        match Get(ClayDiameters, diameter)
        case Some(c) => [Line("AR150 Teeth", c.0 as real), Line(c.1, 2.0)]
        case None => []
  }

  /**
   * `_get_teeth_clay_shale` as written: the `teeth_3` pair is added with
   * `extend`, so its name and its count become two separate elements of the
   * list.
   */
  function ClayShaleTeeth(diameter: int, teeth: string, pilot: string): (r: seq<Item>)
    ensures ClayBranchOf(diameter, teeth) == Unlisted ==> r == []
    ensures ClayBranchOf(diameter, teeth) == Stepped ==>
      r == Pairs(ClayHead(diameter, teeth, pilot) + KitPartsOf(ClayPilots, pilot))
    ensures ClayBranchOf(diameter, teeth) in {Formula, Fixed} && HasKey(ClayThirdTeeth, pilot) ==>
      |r| >= 1 && r[|r| - 1] == Number(4.0)
  {
    var lines := Pairs(ClayHead(diameter, teeth, pilot) + KitPartsOf(ClayPilots, pilot));
    match ClayBranchOf(diameter, teeth)
    case Unlisted => []
    case Stepped => lines
    case _ =>
      match Get(ClayThirdTeeth, pilot)
      case None => lines
      case Some(third) => lines + [Text(third.name), Number(third.qty)]
  }

  /**
   * `_get_teeth_clay_shale` as evidently intended: the `teeth_3` pair is one
   * more line after the pilot parts.
   */
  function ClayShaleTeethLines(diameter: int, teeth: string, pilot: string): (r: seq<Line>)
    ensures ClayBranchOf(diameter, teeth) == Unlisted <==> r == []
    ensures ClayBranchOf(diameter, teeth) != Unlisted ==> |r| >= 2 + |KitPartsOf(ClayPilots, pilot)|
    ensures ClayBranchOf(diameter, teeth) == Stepped ==>
      |r| == 2 + |KitPartsOf(ClayPilots, pilot)| && IsEvenCount(r[0].qty) && r[1].qty == r[0].qty
      && r[2..] == KitPartsOf(ClayPilots, pilot)
    ensures ClayBranchOf(diameter, teeth) == Formula ==>
      r[0].name == "AR150 Teeth" && IsEvenCount(r[0].qty) && r[1] == Line("C87B Holder - suit AR150", r[0].qty)
    ensures ClayBranchOf(diameter, teeth) == Fixed ==>
      r[0] == Line("AR150 Teeth", GetOr(ClayDiameters, diameter, (0, "")).0 as real) && r[1].qty == 2.0
    ensures ClayBranchOf(diameter, teeth) in {Formula, Fixed} ==>
      r[2..2 + |KitPartsOf(ClayPilots, pilot)|] == KitPartsOf(ClayPilots, pilot)
      && (HasKey(ClayThirdTeeth, pilot) <==> |r| == 3 + |KitPartsOf(ClayPilots, pilot)|)
      && (HasKey(ClayThirdTeeth, pilot) ==> r[|r| - 1].qty == 4.0)
    ensures ClayBranchOf(diameter, teeth) in {Formula, Fixed} && HasKey(ClayThirdTeeth, pilot) ==>
      r[|r| - 1] == GetOr(ClayThirdTeeth, pilot, NoLine) && Counted(r[|r| - 1])
  {
    var kit := KitPartsOf(ClayPilots, pilot);
    var lines := ClayHead(diameter, teeth, pilot) + kit;
    match ClayBranchOf(diameter, teeth)
    case Unlisted => []
    case Stepped => lines
    case _ =>
      assert lines[2..2 + |kit|] == kit;
      match Get(ClayThirdTeeth, pilot)
      case None => lines
      case Some(third) =>
        ClayThirdCounted(pilot);
        assert (lines + [third])[2..2 + |kit|] == kit;
        lines + [third]
  }

  /** Every third tooth is a named line of four. */
  lemma ClayThirdCounted(pilot: string)
    requires HasKey(ClayThirdTeeth, pilot)
    ensures Get(ClayThirdTeeth, pilot).value.qty == 4.0 && Counted(Get(ClayThirdTeeth, pilot).value)
  {
  }

  /** Without a third tooth, or off the AR150 branches, the written list is the intended one. */
  lemma ClayShaleAgreeWithoutThirdTooth(diameter: int, teeth: string, pilot: string)
    requires ClayBranchOf(diameter, teeth) !in {Formula, Fixed} || !HasKey(ClayThirdTeeth, pilot)
    ensures ClayShaleTeeth(diameter, teeth, pilot) == Pairs(ClayShaleTeethLines(diameter, teeth, pilot))
  {
  }

  /** On the AR150 branches a rock pilot leaves its bare count 4 in the written list. */
  lemma ClayShaleThirdToothIsBare(diameter: int, teeth: string, pilot: string)
    requires ClayBranchOf(diameter, teeth) in {Formula, Fixed} && HasKey(ClayThirdTeeth, pilot)
    ensures exists i :: 0 <= i < |ClayShaleTeeth(diameter, teeth, pilot)| && Raises(ClayShaleTeeth(diameter, teeth, pilot)[i])
  {
    var r := ClayShaleTeeth(diameter, teeth, pilot);
    assert Raises(r[|r| - 1]);
  }

  /** The parts of a blade auger: teeth, holder, pilot, pilot support and end cap, each possibly `None`. */
  datatype BladeParts = BladeParts(teeth: Option<Line>, holder: Option<Line>, pilot: Option<Line>,
                                   support: Option<Line>, endCap: Option<Line>)

  /** The five parts as list elements, `None` included. */
  function BladeItems(b: BladeParts): (r: seq<Item>)
    ensures |r| == 5
  {
    var item := (o: Option<Line>) => if o.Some? then Pair(o.value) else Absent;
    [item(b.teeth), item(b.holder), item(b.pilot), item(b.support), item(b.endCap)]
  }

  const BladeDiameters: seq<(int, (string, string))> := [
    (300, ("300mm Hardfaced Blade Teeth", "300mm Blade Holder")),
    (400, ("400mm Hardfaced Blade Teeth", "400mm Blade Holder")),
    (450, ("450mm Hardfaced Blade Teeth", "450mm Blade Holder"))
  ]

  const BladePilots: seq<(string, PilotKit)> := [
    ("Blade Auger Fishtail Pilot", BladePilotKit),
    ("Hex Auger Torque Fishtail Pilot", HexKit("Auger Pilot - Hex Auger Torque Fishtail"))
  ]

  /**
   * `_get_teeth_blade`: two teeth and two holders for the three listed
   * diameters, and the pilot, its support and (for the hex pilot only) the
   * end cap for the two listed pilots. The teeth attribute does not take part.
   */
  function BladeTeeth(diameter: int, pilot: string): (r: BladeParts)
    ensures r.teeth.Some? <==> HasKey(BladeDiameters, diameter)
    ensures r.holder.Some? <==> HasKey(BladeDiameters, diameter)
    ensures r.teeth.Some? ==> r.teeth.value.qty == 2.0 && r.holder.value.qty == 2.0
    ensures r.pilot.Some? <==> HasKey(BladePilots, pilot)
    ensures r.support.Some? <==> HasKey(BladePilots, pilot)
    ensures r.endCap.Some? <==> pilot == "Hex Auger Torque Fishtail Pilot"
  {
    var (teeth, holder) := match Get(BladeDiameters, diameter)
      case None => (None, None)
      case Some(names) => (Some(Line(names.0, 2.0)), Some(Line(names.1, 2.0)));
    match Get(BladePilots, pilot)
    case None =>
      assert BladePilots[1].0 != pilot;
      BladeParts(teeth, holder, None, None, None)
    case Some(kit) => BladeParts(teeth, holder, Some(kit.pilot), Some(kit.support), kit.endCap)
  }

  /** The names `_get_pilot_support` looks for. */
  predicate IsSupportName(name: string)
  {
    PyText.Contains(name, "Pilot Support") || PyText.Contains(name, "Pipe - OD101mm WT4.0mm")
  }

  /** Item `c` is a pair whose name is a pilot support. */
  predicate SupportItem(c: Item)
  {
    c.Pair? && IsSupportName(c.line.name)
  }

  /**
   * `_get_pilot_support`: the name of the first pair naming a pilot support.
   * Empty and `None` elements are skipped; a bare string's first character
   * never contains a keyword; `len` of a bare non-zero number raises.
   */
  function PilotSupport(items: seq<Item>): (r: Result<Option<string>>)
    ensures r.Fail? ==> r.error == TypeError
    ensures r.Fail? <==> exists i :: 0 <= i < |items| && Raises(items[i])
                                   && forall j :: 0 <= j < i ==> !SupportItem(items[j])
    ensures r.Ok? && r.value.None? <==> forall i :: 0 <= i < |items| ==> !SupportItem(items[i]) && !Raises(items[i])
    ensures r.Ok? && r.value.Some? ==>
      exists i :: 0 <= i < |items| && SupportItem(items[i]) && items[i].line.name == r.value.value
                  && forall j :: 0 <= j < i ==> !SupportItem(items[j]) && !Raises(items[j])
  {
    if items == [] then Ok(None)
    else
      var c := items[0];
      if Raises(c) then Fail(TypeError)
      else if SupportItem(c) then Ok(Some(c.line.name))
      else
        var rest := PilotSupport(items[1..]);
        assert forall i :: 1 <= i < |items| ==> items[i] == items[1..][i - 1];
        rest
  }
}
