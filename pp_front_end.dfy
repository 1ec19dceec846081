/**
 * The front-end teeth of a drilling barrel (product_product.py,
 * `_get_zed_frontend_components`, `_get_teeth_taper_components`,
 * `_get_teeth_clay_components`, `_get_teeth_rock_components`;
 * bom_automation_v2.py holds an identical copy).
 *
 * Each front end has its own parity rule: ZED rounds the count up to an even
 * number, Taper Rock rounds it down to an odd one, Clay and Rock make a
 * dual-blade count odd by stepping down and leave a single-blade count as the
 * floor division gives it.
 */
module BarrelFrontEnd {
  import opened PyNum
  import opened Bom

  datatype FrontEnd = RockEnd | ClayEnd | TaperEnd | ZedEnd | OtherEnd

  /** Reads the "Front End" attribute. */
  function FrontEndOf(s: string): (f: FrontEnd)
    ensures f == RockEnd <==> s == "Rock Front End"
    ensures f == ClayEnd <==> s == "Clay Front End"
    ensures f == TaperEnd <==> s == "Taper Rock Front End"
    ensures f == ZedEnd <==> s == "ZED Front End"
  {
    if s == "Rock Front End" then RockEnd
    else if s == "Clay Front End" then ClayEnd
    else if s == "Taper Rock Front End" then TaperEnd
    else if s == "ZED Front End" then ZedEnd
    else OtherEnd
  }

  datatype BarrelTeeth = Teeth22 | Teeth25 | Teeth3830 | Bfz162 | Fz54 | OtherTeeth

  /** Reads the "Teeth" attribute of a drilling barrel. */
  function TeethOf(s: string): (t: BarrelTeeth)
    ensures t == Teeth22 <==> s == "22mm Teeth"
    ensures t == Teeth25 <==> s == "25mm teeth"
    ensures t == Teeth3830 <==> s == "38/30 Teeth"
    ensures t == Bfz162 <==> s == "BFZ162 teeth"
    ensures t == Fz54 <==> s == "FZ54 teeth"
  {
    if s == "22mm Teeth" then Teeth22
    else if s == "25mm teeth" then Teeth25
    else if s == "38/30 Teeth" then Teeth3830
    else if s == "BFZ162 teeth" then Bfz162
    else if s == "FZ54 teeth" then Fz54
    else OtherTeeth
  }

  /** The shank-tooth sizes the ZED, Taper Rock and Rock front ends take. */
  predicate ShankTeeth(t: BarrelTeeth) { t == Teeth22 || t == Teeth25 || t == Teeth3830 }

  /** `q if q % 2 == 0 else q + 1`. */
  function EvenUp(q: int): (r: int)
    ensures IsEven(r) && q <= r <= q + 1
  {
    if q % 2 == 0 then q else q + 1
  }

  /** `q if q % 2 != 0 else q - 1`. */
  function OddDown(q: int): (r: int)
    ensures IsOdd(r) && q - 1 <= r <= q
  {
    if q % 2 != 0 then q else q - 1
  }

  /** The shank tooth of a tooth size. */
  function ShankTooth(t: BarrelTeeth): string
    requires ShankTeeth(t)
  {
    match t
    case Teeth22 => "BC86 - 22mm Shank Teeth BETEK"
    case Teeth25 => "BTK03TB - 25mm Shank Teeth"
    case Teeth3830 => "BKH105TB - 38/30mm Shank Teeth"
  }

  /** The block holder of a ZED or Taper Rock tooth. */
  function BlockHolder(t: BarrelTeeth): string
    requires ShankTeeth(t)
  {
    match t
    case Teeth22 => "BHR176 - 22mm Block Tooth Holder"
    case Teeth25 => "BHR31 - 25mm Block Tooth Holder"
    case Teeth3830 => "BHR38 - 38/30mm Block Tooth Holder"
  }

  /** The pilot and pilot support of a Taper Rock or Rock front end. */
  function RockPilot(t: BarrelTeeth): (r: seq<Line>)
    requires ShankTeeth(t)
    ensures |r| == 2 && r[0].qty == 1.0 && r[1].qty == 1.0
  {
    match t
    case Teeth22 => [Line("Rock Pilot suit 22mm Teeth 44mm Hex - RH", 1.0), Line("Pilot Support - Hex", 1.0)]
    case Teeth25 => [Line("Rock Auger Pilot - 25mm Shank 75mm square", 1.0), Line("Pilot Support - 75mm Square", 1.0)]
    case Teeth3830 => [Line("Rock Auger Pilot - 38/30mm Shank 100mm Square", 1.0), Line("Pilot Support - 100mm Square", 1.0)]
  }

  /** The ZED flight stiffener of a drilling barrel: "(Under 600mm)" below a 750mm diameter. */
  function BarrelStiffener(diameter: int): (r: Line)
    ensures r.qty == 2.0
  {
    if diameter < 750 then Line("ZED Flight Stiffener (Under 600mm)", 2.0)
    else Line("ZED Flight Stiffener (600mm+)", 2.0)
  }

  /** The tooth spacing in mm of the ZED and Taper Rock counts. */
  function BlockSpacing(t: BarrelTeeth): (r: int)
    requires ShankTeeth(t)
    ensures r > 0
  {
    match t
    case Teeth22 => 42
    case Teeth25 => 44
    case Teeth3830 => 66
  }

  /** The unrounded ZED count: `(diameter - head OD - 40) / spacing * 2`. */
  function ZedRaw(headOd: int, diameter: int, spacing: int): real
    requires spacing > 0
  {
    (diameter - headOd - 40) as real / spacing as real * 2.0
  }

  /** The ZED count: the rounded raw count, one more when that is odd. */
  function ZedQty(headOd: int, diameter: int, spacing: int): (r: int)
    requires spacing > 0
    ensures IsEven(r)
    ensures Round(ZedRaw(headOd, diameter, spacing)) <= r <= Round(ZedRaw(headOd, diameter, spacing)) + 1
  {
    EvenUp(Round(ZedRaw(headOd, diameter, spacing)))
  }

  /** The ZED count is the least even number not below the rounded raw count. */
  lemma ZedQtyIsLeast(headOd: int, diameter: int, spacing: int, k: int)
    requires spacing > 0
    requires IsEven(k) && k >= Round(ZedRaw(headOd, diameter, spacing))
    ensures ZedQty(headOd, diameter, spacing) <= k
  {
  }

  /**
   * `_get_zed_frontend_components`, given the head OD of the chosen pivot
   * kit: for a shank tooth an even number of teeth and as many block holders,
   * the teeth brace for the 25mm and 38/30 teeth, and the flight stiffener
   * last; nothing for any other tooth. The count is even for every tooth,
   * the 38/30 one included, although the source's comment there says odd.
   */
  function ZedFrontEnd(headOd: int, diameter: int, t: BarrelTeeth): (r: seq<Line>)
    ensures r == [] <==> !ShankTeeth(t)
    ensures ShankTeeth(t) ==>
      |r| == (if t == Teeth22 then 3 else 4)
      && r[0] == Line(ShankTooth(t), ZedQty(headOd, diameter, BlockSpacing(t)) as real)
      && r[1] == Line(BlockHolder(t), r[0].qty)
      && IsEvenCount(r[0].qty)
      && r[|r| - 1] == BarrelStiffener(diameter)
      && (t != Teeth22 ==> r[2] == Line("ZED Auger Teeth Brace", 2.0))
  {
    if !ShankTeeth(t) then []
    else
      var q := ZedQty(headOd, diameter, BlockSpacing(t)) as real;
      var brace := if t == Teeth22 then [] else [Line("ZED Auger Teeth Brace", 2.0)];
      [Line(ShankTooth(t), q), Line(BlockHolder(t), q)] + brace + [BarrelStiffener(diameter)]
  }

  /** The pilot-support OD the Taper Rock count leaves out. */
  function TaperOffset(t: BarrelTeeth): (r: int)
    requires ShankTeeth(t)
  {
    match t
    case Teeth22 => 78
    case Teeth25 => 150
    case Teeth3830 => 200
  }

  /** The unrounded Taper Rock count: `(diameter - offset - 40) / spacing + 4`. */
  function TaperRaw(diameter: int, t: BarrelTeeth): real
    requires ShankTeeth(t)
  {
    (diameter - TaperOffset(t) - 40) as real / BlockSpacing(t) as real + 4.0
  }

  /** The Taper Rock count: the rounded raw count, one less when that is even. */
  function TaperQty(diameter: int, t: BarrelTeeth): (r: int)
    requires ShankTeeth(t)
    ensures IsOdd(r)
    ensures Round(TaperRaw(diameter, t)) - 1 <= r <= Round(TaperRaw(diameter, t))
  {
    OddDown(Round(TaperRaw(diameter, t)))
  }

  /** The Taper Rock count is the greatest odd number not above the rounded raw count. */
  lemma TaperQtyIsGreatest(diameter: int, t: BarrelTeeth, k: int)
    requires ShankTeeth(t)
    requires IsOdd(k) && k <= Round(TaperRaw(diameter, t))
    ensures k <= TaperQty(diameter, t)
  {
  }

  /**
   * `_get_teeth_taper_components`: for a shank tooth an odd number of teeth,
   * four fewer block holders, then the pilot and its support; nothing for
   * any other tooth.
   */
  function TaperFrontEnd(diameter: int, t: BarrelTeeth): (r: seq<Line>)
    ensures r == [] <==> !ShankTeeth(t)
    ensures ShankTeeth(t) ==>
      |r| == 4
      && r[0] == Line(ShankTooth(t), TaperQty(diameter, t) as real)
      && IsOddCount(r[0].qty)
      && r[1] == Line(BlockHolder(t), r[0].qty - 4.0)
      && r[2..] == RockPilot(t)
  {
    if !ShankTeeth(t) then []
    else
      var q := TaperQty(diameter, t);
      [Line(ShankTooth(t), q as real), Line(BlockHolder(t), (q - 4) as real)] + RockPilot(t)
  }

  /** A dual-blade count: the floor division made odd by stepping down. */
  function DualQty(a: int, spacing: int): (r: int)
    requires spacing > 0
    ensures IsOdd(r)
  {
    OddDown(a / spacing)
  }

  /**
   * Halving the spacing of a floor division doubles the quotient, give or
   * take one.
   */
  lemma HalfSpacing(a: int, b: int)
    requires b > 0
    ensures a / b == 2 * (a / (2 * b)) || a / b == 2 * (a / (2 * b)) + 1
  {
    var q := a / (2 * b);
    var r := a % (2 * b);
    assert a == q * (2 * b) + r && 0 <= r < 2 * b;
    assert a == (2 * q) * b + r;
    if r < b {
      assert a == (2 * q) * b + r && 0 <= r < b;
      DivUnique(a, b, 2 * q, r);
    } else {
      assert a == (2 * q + 1) * b + (r - b) && 0 <= r - b < b;
      DivUnique(a, b, 2 * q + 1, r - b);
    }
  }

  /** The quotient of a floor division is the one its remainder bounds determine. */
  lemma DivUnique(a: int, b: int, q: int, r: int)
    requires b > 0 && a == q * b + r && 0 <= r < b
    ensures a / b == q
  {
    var q' := a / b;
    var r' := a % b;
    assert a == q' * b + r' && 0 <= r' < b;
    if q' < q {
      MulAtLeast(q - q', b);
      assert false;
    } else if q' > q {
      MulAtLeast(q' - q, b);
      assert false;
    }
  }

  lemma MulAtLeast(k: int, b: int)
    requires k >= 1 && b > 0
    ensures k * b >= b
  {
    assert k * b == (k - 1) * b + b;
  }

  /**
   * A dual blade carries twice the single blade's teeth made odd: one more
   * or one fewer than double the count at twice the spacing.
   */
  lemma DualDoublesSingle(a: int, spacing: int)
    requires spacing > 0
    ensures DualQty(a, spacing) == 2 * (a / (2 * spacing)) - 1
         || DualQty(a, spacing) == 2 * (a / (2 * spacing)) + 1
  {
    HalfSpacing(a, spacing);
  }

  /** The clay count: `(diameter - offset) // spacing`, made odd for a dual blade. */
  function ClayQty(a: int, spacing: int, dual: bool): (r: int)
    requires spacing > 0
    ensures dual ==> IsOdd(r)
  {
    if dual then DualQty(a, spacing) else a / (2 * spacing)
  }

  /**
   * `_get_teeth_clay_components`: for the BFZ162 and FZ54 teeth the flat
   * teeth, four shank teeth, a holder per flat tooth, and the pilot and its
   * support; nothing for any other tooth. A dual blade takes an odd count.
   */
  function ClayFrontEnd(diameter: int, t: BarrelTeeth, dual: bool): (r: seq<Line>)
    ensures r == [] <==> t != Bfz162 && t != Fz54
    ensures t == Bfz162 || t == Fz54 ==>
      |r| == 5 && r[1].qty == 4.0 && r[2].qty == r[0].qty
      && r[3].qty == 1.0 && r[4].qty == 1.0
      && r[0].qty == (if t == Bfz162 then ClayQty(diameter - 240, 75, dual) else ClayQty(diameter - 190, 58, dual)) as real
      && (dual ==> IsOddCount(r[0].qty))
  {
    if t == Bfz162 then
      var q := ClayQty(diameter - 240, 75, dual) as real;
      [Line("BFZ162 (FZ70) 38/30mm step shank flat Teeth", q),
       Line("BKH105TB - 38/30mm Shank Teeth", 4.0),
       Line("Phaser Teeth Holder", q),
       Line("Rock Auger Pilot - 38/30mm Shank 100mm Square", 1.0),
       Line("Pilot Support - 100mm Square", 1.0)]
    else if t == Fz54 then
      var q := ClayQty(diameter - 190, 58, dual) as real;
      [Line("FZ54 Mini Bauer Teeth", q),
       Line("BTK03TB - 25mm Shank Teeth ", 4.0),
       Line("Mini Bauer Holder", q),
       Line("Rock Auger Pilot - 25mm Shank 75mm square", 1.0),
       Line("Pilot Support - 75mm Square ", 1.0)]
    else []
  }

  /** The round holder of a Rock front end. */
  function RoundHolder(t: BarrelTeeth): string
    requires ShankTeeth(t)
  {
    match t
    case Teeth22 => "BHR174 - 22mm Round Tooth Holder"
    case Teeth25 => "BHR167 - 25mm Round Tooth Holder"
    case Teeth3830 => "TB38R - 38/30 Shank Round Holder"
  }

  /** The dual-blade tooth spacing of a Rock front end; a single blade spaces twice as wide. */
  function RoundSpacing(t: BarrelTeeth): (r: int)
    requires ShankTeeth(t)
    ensures r > 0
  {
    match t
    case Teeth22 => 43
    case Teeth25 => 50
    case Teeth3830 => 74
  }

  /** The Rock count: four more than the clay-style count of the cut width. */
  function RockQty(diameter: int, t: BarrelTeeth, dual: bool): (r: int)
    requires ShankTeeth(t)
    ensures dual ==> IsOdd(r)
  {
    var a := diameter - TaperOffset(t) - 40;
    if dual then OddDown(a / RoundSpacing(t) + 4) else a / (2 * RoundSpacing(t)) + 4
  }

  /**
   * `_get_teeth_rock_components`: for a shank tooth the teeth, four fewer
   * round holders, and the pilot and its support; nothing for any other
   * tooth. A dual blade takes an odd count.
   */
  function RockFrontEnd(diameter: int, t: BarrelTeeth, dual: bool): (r: seq<Line>)
    ensures r == [] <==> !ShankTeeth(t)
    ensures ShankTeeth(t) ==>
      |r| == 4
      && r[0] == Line(ShankTooth(t), RockQty(diameter, t, dual) as real)
      && r[1] == Line(RoundHolder(t), r[0].qty - 4.0)
      && r[2..] == RockPilot(t)
      && (dual ==> IsOddCount(r[0].qty))
  {
    if !ShankTeeth(t) then []
    else
      var q := RockQty(diameter, t, dual);
      [Line(ShankTooth(t), q as real), Line(RoundHolder(t), (q - 4) as real)] + RockPilot(t)
  }

  /**
   * The Rock holders of a dual blade are one more or one fewer than double
   * the single blade's holders.
   */
  lemma RockDualDoublesSingle(diameter: int, t: BarrelTeeth)
    requires ShankTeeth(t)
    ensures RockQty(diameter, t, true) - 4 == 2 * (RockQty(diameter, t, false) - 4) - 1
         || RockQty(diameter, t, true) - 4 == 2 * (RockQty(diameter, t, false) - 4) + 1
  {
    var a := diameter - TaperOffset(t) - 40;
    HalfSpacing(a, RoundSpacing(t));
  }

  /**
   * The teeth a drilling barrel's front end appends, chosen by the front
   * end; the head OD of the pivot kit matters only to ZED.
   */
  function FrontEndLines(f: FrontEnd, headOd: int, diameter: int, t: BarrelTeeth, dual: bool): seq<Line>
  {
    match f
    case RockEnd => RockFrontEnd(diameter, t, dual)
    case ClayEnd => ClayFrontEnd(diameter, t, dual)
    case TaperEnd => TaperFrontEnd(diameter, t)
    case ZedEnd => ZedFrontEnd(headOd, diameter, t)
    case OtherEnd => []
  }
}
