/**
 * The parts the drilling-barrel and cleaning-bucket builders share
 * (product_product.py; bom_automation_v2.py holds an identical copy): the
 * drive-head parts, the pivot kits, the hollow-bar extension and its ZED
 * centre, the plunger bars, the handle-bar lengths, the parallel flange
 * channels, the hinge tables and the profiling combination.
 *
 * The rules compare the "Drive Head" and "Type" attribute strings against
 * fixed lists; each string is read once into `DriveHead` and `BarrelType`
 * (any string outside the lists becomes `OtherHead` / `OtherType`) and every
 * rule is stated over those.
 */
module BarrelParts {
  import opened BomWrappers
  import opened PyNum
  import opened Bom
  import opened RangeTable
  import AugerTeeth

  datatype DriveHead =
    | Square75 | Square100 | Square110 | Square130 | Digga130 | Square150 | Imt150
    | Bauer200 | Mait200 | LoDrill4 | CustomHead | OtherHead

  /** The attribute value of a listed drive head. */
  function HeadText(h: DriveHead): string
    requires h != OtherHead
  {
    match h
    case Square75 => "75mm Square Head"
    case Square100 => "100mm Square Head"
    case Square110 => "110mm Square Head"
    case Square130 => "130mm Square Head"
    case Digga130 => "130mm Digga Square Head"
    case Square150 => "150mm Square Head"
    case Imt150 => "150mm IMT Square Head"
    case Bauer200 => "200mm Bauer Square Head"
    case Mait200 => "200mm Mait Square Head"
    case LoDrill4 => "4\" Lo Drill Head"
    case CustomHead => "Custom head"
  }

  /** Reads the "Drive Head" attribute: a listed head exactly when the text is that head's. */
  function HeadOf(s: string): (h: DriveHead)
    ensures h != OtherHead ==> HeadText(h) == s
    ensures h == OtherHead ==> forall g :: g != OtherHead ==> HeadText(g) != s
  {
    if s == "75mm Square Head" then Square75
    else if s == "100mm Square Head" then Square100
    else if s == "110mm Square Head" then Square110
    else if s == "130mm Square Head" then Square130
    else if s == "130mm Digga Square Head" then Digga130
    else if s == "150mm Square Head" then Square150
    else if s == "150mm IMT Square Head" then Imt150
    else if s == "200mm Bauer Square Head" then Bauer200
    else if s == "200mm Mait Square Head" then Mait200
    else if s == "4\" Lo Drill Head" then LoDrill4
    else if s == "Custom head" then CustomHead
    else OtherHead
  }

  /** The square and Lo Drill heads: every listed head but the custom one. */
  predicate SquareHead(h: DriveHead) { h != CustomHead && h != OtherHead }

  datatype BarrelType = Lightweight | Standard | HeavyDuty | OtherType

  /** Reads the "Type" attribute. */
  function TypeOf(s: string): (t: BarrelType)
    ensures t == Lightweight <==> s == "Lightweight"
    ensures t == Standard <==> s == "Standard"
    ensures t == HeavyDuty <==> s == "Heavy Duty"
  {
    if s == "Lightweight" then Lightweight
    else if s == "Standard" then Standard
    else if s == "Heavy Duty" then HeavyDuty
    else OtherType
  }

  /** `_get_drive_head`: the drive-head part of a square or Lo Drill head, "" for any other. */
  function DrivePart(h: DriveHead): (r: string)
    ensures r != "" <==> SquareHead(h)
  {
    match h
    case Square75 => "Drive Head - 75mm Square"
    case Square100 => "Drive Head - 100mm Square"
    case Square110 => "Drive Head - 110mm Square"
    case Square130 => "Drive Head - 130mm Square"
    case Digga130 => "Drive Head - 130mm Square DIGGA"
    case Square150 => "Drive Head - 150mm Square"
    case Imt150 => "Drive Head - 150mm Square IMT"
    case Bauer200 => "Drive Head - 200mm Square Bauer"
    case Mait200 => "Drive Head - 200mm Square MAIT"
    case LoDrill4 => "Drive Head - 4\" Lo Drill"
    case _ => ""
  }

  /**
   * The drive-head ears: two ears for the 130mm square head, four DIGGA ears
   * for the 130mm Digga head, none for any other.
   */
  function EarsLine(h: DriveHead): (r: Option<Line>)
    ensures r.Some? <==> h == Square130 || h == Digga130
    ensures r.Some? ==> Named(r.value) && (r.value.qty == 2.0 <==> h == Square130)
    ensures r.Some? ==> (r.value.qty == 4.0 <==> h == Digga130)
  {
    var square := if h == Square130 then "Drive Head EARS - 130mm Square" else "";
    var name := if h == Digga130 then "Drive Head EARS - 130mm Square DIGGA" else square;
    Opt(name, if h == Square130 then 2.0 else 4.0)
  }

  /**
   * `_get_gusset_combination`: the drive named on the gusset; for the 75, 100
   * and 110mm heads and unlisted heads it is the head's number (`head`, the
   * first digits of the attribute, "" when it has none) followed by "mm Drive".
   */
  function GussetDrive(h: DriveHead, head: string): (r: string)
    ensures r != ""
    ensures h in {Square75, Square100, Square110, OtherHead} ==> r == head + "mm Drive"
  {
    match h
    case LoDrill4 => "4\" Lo Drill"
    case CustomHead => "Custom Head"
    case Square130 => "130mm Square Drive"
    case Digga130 => "130mm Digga Drive"
    case Square150 => "150mm Drive"
    case Imt150 => "150mm IMT Drive"
    case Bauer200 => "200mm Bauer Drive"
    case Mait200 => "200mm Mait Drive"
    case _ => head + "mm Drive"
  }

  /** The gusset's label suffix: none for the custom and "Amazng" heads. */
  function GussetLabel(dHead: string): string
  {
    if dHead == "Custom head" || dHead == "Amazng Head" then "" else "- Clean & Drill Barrel"
  }

  /** The gusset of a barrel of `dNumber` mm (the diameter's first digits). */
  function GussetName(dHead: string, head: string, dNumber: string): (r: string)
    ensures |r| > 7 && r[..7] == "Gusset "
  {
    "Gusset " + GussetDrive(HeadOf(dHead), head) + " x " + dNumber + "mm Diameter " + GussetLabel(dHead)
  }

  /**
   * The groups of head and type combinations that share a profiling program:
   * six duty grades of the square heads, then the Lo Drill and custom heads by type.
   */
  datatype ProfGroup = Duty(grade: nat) | LoDrillDuty(t: BarrelType) | CustomDuty(t: BarrelType)

  /** The tests of `_get_prof_combination_for_cb_db`, in order: the group, `None` when none matches. */
  function ProfGroupOf(h: DriveHead, t: BarrelType): (r: Option<ProfGroup>)
    ensures h == OtherHead || t == OtherType ==> r.None?
  {
    if h == Square75 && t == Lightweight then Some(Duty(0))
    else if (h == Square75 && t == Standard) || (h == Square100 && t == Lightweight)
      || (h == Square110 && t == Lightweight) then Some(Duty(1))
    else if (h == Square75 && t == HeavyDuty) || (h == Square100 && t == Standard)
      || (h == Square110 && t == Standard) || (h == Square130 && t == Lightweight)
      || (h == Digga130 && t == Lightweight) || (h == Imt150 && t == Lightweight)
      || (h == Square150 && t == Lightweight) then Some(Duty(2))
    else if (h == Square100 && t == HeavyDuty) || (h == Square110 && t == HeavyDuty)
      || (h == Square130 && t == Standard) || (h == Digga130 && t == Standard)
      || (h == Imt150 && t == Standard) || (h == Square150 && t == Standard)
      || (h == Mait200 && t == Lightweight) || (h == Bauer200 && t == Lightweight) then Some(Duty(3))
    else if (h == Square130 && t == HeavyDuty) || (h == Digga130 && t == HeavyDuty)
      || (h == Square150 && t == HeavyDuty) || (h == Imt150 && t == HeavyDuty)
      || (h == Mait200 && t == Standard) || (h == Bauer200 && t == Standard) then Some(Duty(4))
    else if (h == Bauer200 && t == HeavyDuty) || (h == Mait200 && t == HeavyDuty) then Some(Duty(5))
    else if t == Lightweight && h == LoDrill4 then Some(LoDrillDuty(Lightweight))
    else if t == Standard && h == LoDrill4 then Some(LoDrillDuty(Standard))
    else if t == HeavyDuty && h == LoDrill4 then Some(LoDrillDuty(HeavyDuty))
    else if t == Lightweight && h == CustomHead then Some(CustomDuty(Lightweight))
    else if t == Standard && h == CustomHead then Some(CustomDuty(Standard))
    else if t == HeavyDuty && h == CustomHead then Some(CustomDuty(HeavyDuty))
    else None
  }

  /** The text `_get_prof_combination_for_cb_db` returns for a group. */
  function ProfGroupName(g: ProfGroup): (r: string)
    ensures r != ""
  {
    match g
    case Duty(0) => "75mm Lightweight"
    case Duty(1) => "75mm Standard, 100mm Lightweight, 110mm Lightweight"
    case Duty(2) => "75mm Heavy Duty, 100mm Standard, 110mm Standard, 130mm Lightweight, 150mm Lightweight"
    case Duty(3) => "100mm Heavy Duty, 110mm Heavy Duty, 130mm Standard, 150mm Standard, 200mm Lightweight"
    case Duty(4) => "130mm Heavy Duty, 150mm Heavy Duty, 200mm Standard"
    case Duty(_) => "200mm Heavy Duty"
    case LoDrillDuty(Lightweight) => "4\" Lo Drill Lightweight"
    case LoDrillDuty(Standard) => "4\" Lo Drill Standard"
    case LoDrillDuty(_) => "4\" Lo Drill Heavy Duty"
    case CustomDuty(Lightweight) => "Custom Head Lightweight"
    case CustomDuty(Standard) => "Custom Head Standard"
    case CustomDuty(_) => "Custom Head Heavy Duty"
  }

  /** `_get_prof_combination_for_cb_db`: the group's text, "" when no test matches. */
  function ProfCombination(h: DriveHead, t: BarrelType): (r: string)
    ensures h == OtherHead || t == OtherType ==> r == ""
  {
    match ProfGroupOf(h, t)
    case None => ""
    case Some(g) => ProfGroupName(g)
  }

  /** Every listed head and type has a profiling group. */
  lemma ProfCombinationListed(h: DriveHead, t: BarrelType)
    ensures ProfCombination(h, t) == "" <==> h == OtherHead || t == OtherType
  {
    match t
    case Lightweight =>
    case Standard =>
    case HeavyDuty =>
    case OtherType =>
  }

  /** The weight class of a square head: 75mm, 100-110mm, 130-150mm, 200mm. */
  function HeadRank(h: DriveHead): nat
  {
    match h
    case Square75 => 0
    case Square100 => 1
    case Square110 => 1
    case Bauer200 => 3
    case Mait200 => 3
    case _ => 2
  }

  function TypeRank(t: BarrelType): nat
  {
    match t
    case Lightweight => 0
    case Standard => 1
    case _ => 2
  }

  /**
   * A square head's profiling group is its weight class plus its type: one
   * step up in head size and one step up in type land in the same group.
   */
  lemma ProfCombinationGrade(h: DriveHead, t: BarrelType)
    requires SquareHead(h) && h != LoDrill4 && t != OtherType
    ensures ProfGroupOf(h, t) == Some(Duty(HeadRank(h) + TypeRank(t)))
  {
  }

  /** The 75, 100, 110mm and Lo Drill heads. */
  predicate LightHead(h: DriveHead) { h in {Square75, Square100, Square110, LoDrill4} }

  /** The 130mm, Digga, 150mm and IMT heads. */
  predicate MidHead(h: DriveHead) { h in {Square130, Digga130, Square150, Imt150} }

  /** The 200mm Bauer and Mait heads. */
  predicate HeavyHead(h: DriveHead) { h in {Bauer200, Mait200} }

  /**
   * `_get_pivot_kit` (cleaning bucket): the size in mm of the pivot kit, 0 for
   * none. The 120 and 160mm kits of the 200mm heads override the type rules.
   */
  function BucketPivotKitSize(t: BarrelType, h: DriveHead, dia: nat): nat
  {
    var item :=
      if t == Lightweight then
        if LightHead(h) && dia < 550 then 60
        else if MidHead(h) && dia < 450 then 60
        else if LightHead(h) && 550 <= dia < 800 then 80
        else if MidHead(h) && 450 <= dia < 550 then 80
        else if LightHead(h) && dia >= 800 then 90
        else if MidHead(h) && dia >= 550 then 90
        else if (h == CustomHead || HeavyHead(h)) && dia < 1300 then 90
        else 0
      else if t == Standard then
        if h == Square75 && dia < 550 then 60
        else if h in {Square100, Square110, LoDrill4} && dia < 500 then 60
        else if MidHead(h) && dia < 450 then 60
        else if h == Square75 && 550 <= dia < 800 then 80
        else if h in {Square100, Square110, LoDrill4} && 500 <= dia < 650 then 80
        else if MidHead(h) && 450 <= dia < 550 then 80
        else if h == Square75 && dia >= 800 then 90
        else if h in {Square100, Square110, LoDrill4} && dia >= 650 then 90
        else if MidHead(h) && dia >= 550 then 90
        else if HeavyHead(h) && dia < 1300 then 90
        else 0
      else if t == HeavyDuty then
        if h == Square75 && dia < 550 then 60
        else if h == Square75 && 550 <= dia < 800 then 80
        else if h in {Square100, Square110, Square130, Digga130, Square150, LoDrill4, Imt150} && dia < 500 then 80
        else if h == Square75 && dia >= 800 then 90
        else if h in {Square100, Square110, Square130, Digga130, Square150, LoDrill4, Imt150} && dia >= 500 then 90
        else if HeavyHead(h) && dia < 1300 then 90
        else 0
      else 0;
    if t != OtherType && HeavyHead(h) && 1300 <= dia < 2500 then 120
    else if t != OtherType && HeavyHead(h) && dia >= 2500 then 160
    else item
  }

  /** The cleaning-bucket pivot kit of a size, "" for none. */
  function BucketKitName(size: nat): string
  {
    if size == 60 then "Cleaning Bucket Pivot Kit - 60mm"
    else if size == 80 then "Cleaning Bucket Pivot Kit - 80mm"
    else if size == 90 then "Cleaning Bucket Pivot Kit - 90mm"
    else if size == 120 then "Cleaning Bucket Pivot Kit - 120mm"
    else if size == 160 then "Cleaning Bucket Pivot Kit - 160mm"
    else ""
  }

  function BucketPivotKit(t: BarrelType, h: DriveHead, dia: nat): (r: string)
    ensures r == "" <==> !(t != OtherType && (SquareHead(h) || (h == CustomHead && t == Lightweight && dia < 1300)))
  {
    BucketPivotKitCovers(t, h, dia);
    BucketKitName(BucketPivotKitSize(t, h, dia))
  }

  /**
   * Every square head of a listed type gets a cleaning-bucket pivot kit at
   * every diameter; the custom head gets one only as a Lightweight bucket below 1300mm.
   */
  lemma BucketPivotKitCovers(t: BarrelType, h: DriveHead, dia: nat)
    ensures BucketPivotKitSize(t, h, dia) in {0, 60, 80, 90, 120, 160}
    ensures BucketPivotKitSize(t, h, dia) != 0 <==>
      t != OtherType && (SquareHead(h) || (h == CustomHead && t == Lightweight && dia < 1300))
  {
  }

  /** For a fixed head and type, a wider bucket never gets a smaller pivot kit. */
  lemma BucketPivotKitGrows(t: BarrelType, h: DriveHead, d1: nat, d2: nat)
    requires d1 <= d2
    requires BucketPivotKitSize(t, h, d1) != 0 && BucketPivotKitSize(t, h, d2) != 0
    ensures BucketPivotKitSize(t, h, d1) <= BucketPivotKitSize(t, h, d2)
  {
  }

  /** `_get_drill_pivot_kit`: the size in mm of the drilling-barrel pivot kit, 0 for none. */
  function DrillPivotKitSize(t: BarrelType, h: DriveHead, dia: nat): nat
  {
    var big := HeavyHead(h) || h == CustomHead;
    if t == Lightweight || t == Standard then
      if LightHead(h) && dia >= 1 then 90
      else if big && dia < 800 then 90
      else if MidHead(h) && dia < 1000 then 90
      else if MidHead(h) && dia >= 1000 then 120
      else if big && 800 <= dia < 2100 then 120
      else if big && dia >= 2100 then 160
      else 0
    else if t == HeavyDuty then
      if LightHead(h) && dia >= 1 then 90
      else if big && dia < 800 then 90
      else if MidHead(h) && dia < 900 then 90
      else if MidHead(h) && dia >= 900 then 120
      else if big && 800 <= dia < 2100 then 120
      else if big && dia >= 2100 then 160
      else 0
    else 0
  }

  function DrillKitName(size: nat): string
  {
    if size == 90 then "Drilling Barrel Pivot Kit - 90mm"
    else if size == 120 then "Drilling Barrel Pivot Kit - 120mm"
    else if size == 160 then "Drilling Barrel Pivot Kit - 160mm"
    else ""
  }

  function DrillPivotKit(t: BarrelType, h: DriveHead, dia: nat): (r: string)
    ensures r == "" <==> !(t != OtherType && h != OtherHead && (dia >= 1 || !LightHead(h)))
  {
    DrillPivotKitCovers(t, h, dia);
    DrillKitName(DrillPivotKitSize(t, h, dia))
  }

  /**
   * Every listed head of a listed type gets a drilling-barrel pivot kit,
   * except the light heads at diameter 0; a wider barrel never gets a smaller kit.
   */
  lemma DrillPivotKitCovers(t: BarrelType, h: DriveHead, dia: nat)
    ensures DrillPivotKitSize(t, h, dia) in {0, 90, 120, 160}
    ensures DrillPivotKitSize(t, h, dia) != 0 <==>
      t != OtherType && h != OtherHead && (dia >= 1 || !LightHead(h))
  {
  }

  lemma DrillPivotKitGrows(t: BarrelType, h: DriveHead, d1: nat, d2: nat)
    requires d1 <= d2
    requires DrillPivotKitSize(t, h, d1) != 0
    ensures DrillPivotKitSize(t, h, d1) <= DrillPivotKitSize(t, h, d2)
  {
  }

  /** `_get_pivot_kit_head_od`: the head OD in mm a drilling-barrel pivot kit takes, 0 for any other text. */
  function PivotKitHeadOd(kit: string): int
  {
    if kit == "Drilling Barrel Pivot Kit - 90mm" then 150
    else if kit == "Drilling Barrel Pivot Kit - 120mm" then 200
    else if kit == "Drilling Barrel Pivot Kit - 160mm" then 270
    else 0
  }

  /**
   * Reading back the kit the drilling barrel chose gives a head OD exactly
   * when there is a kit, and a larger kit takes a larger head.
   */
  lemma DrillKitHeadOd(t: BarrelType, h: DriveHead, dia: nat)
    ensures PivotKitHeadOd(DrillPivotKit(t, h, dia)) ==
      match DrillPivotKitSize(t, h, dia)
      case 90 => 150
      case 120 => 200
      case 160 => 270
      case _ => 0
  {
    DrillPivotKitCovers(t, h, dia);
  }

  /** The hollow bars a drilling barrel's front end is extended with. */
  datatype HollowBar = NoBar | Od152 | Od200Id150 | Od219 | Od273

  function HollowBarName(b: HollowBar): string
  {
    match b
    case NoBar => ""
    case Od152 => "Hollow Bar - OD152mm WT 33.5mm"
    case Od200Id150 => "Hollow Bar - OD200 ID150"
    case Od219 => "Hollow Bar - OD219mm WT 25mm"
    case Od273 => "Hollow Bar - OD273mm WT 25mm"
  }

  /**
   * `_get_hollow_bar_extension`: the hollow bar for the type, head and
   * diameter; the mid-size bar is the OD200 ID150 one on a Taper Rock front
   * end and the OD219 one otherwise.
   */
  function HollowBarExtension(t: BarrelType, h: DriveHead, dia: nat, frontEnd: string): HollowBar
  {
    var mid := if frontEnd == "Taper Rock Front End" then Od200Id150 else Od219;
    if t == Lightweight || t == Standard then
      if LightHead(h) && dia >= 1 then Od152
      else if HeavyHead(h) && dia < 800 then Od152
      else if MidHead(h) && dia < 1000 then Od152
      else if HeavyHead(h) && 800 <= dia < 2100 then mid
      else if MidHead(h) && dia >= 1000 then mid
      else if HeavyHead(h) && dia >= 2100 then Od273
      else NoBar
    else if t == HeavyDuty then
      if LightHead(h) && dia >= 1 then Od152
      else if MidHead(h) && dia < 900 then Od152
      else if MidHead(h) && dia >= 900 then mid
      else if HeavyHead(h) && 800 <= dia < 2100 then mid
      else if HeavyHead(h) && dia >= 2100 then Od273
      else if HeavyHead(h) && dia < 800 then Od152
      else NoBar
    else NoBar
  }

  /**
   * Which barrels get a hollow bar: a listed type with a square head other
   * than the light ones at diameter 0; the custom head never.
   */
  lemma HollowBarCovers(t: BarrelType, h: DriveHead, dia: nat, frontEnd: string)
    ensures HollowBarExtension(t, h, dia, frontEnd) != NoBar <==>
      t != OtherType && SquareHead(h) && (dia >= 1 || !LightHead(h))
    ensures HollowBarExtension(t, h, dia, frontEnd) == Od200Id150 ==> frontEnd == "Taper Rock Front End"
  {
  }

  /** `_get_zed_centre`: the ZED centre for the hollow bar, only on a ZED front end. */
  function ZedCentre(bar: HollowBar, frontEnd: string): (r: Option<string>)
    ensures r.Some? ==> frontEnd == "ZED Front End" && bar in {Od152, Od219, Od273}
  {
    if frontEnd != "ZED Front End" then None
    else
      match bar
      case Od152 => Some("ZED Centre 150mm")
      case Od219 => Some("ZED Centre 219mm")
      case Od273 => Some("ZED Centre 273mm")
      case _ => None
  }

  /**
   * On a ZED front end the hollow bar is never the Taper Rock one, so a ZED
   * barrel has a ZED centre exactly when it has a hollow bar.
   */
  lemma ZedCentreOfZedFrontEnd(t: BarrelType, h: DriveHead, dia: nat)
    ensures ZedCentre(HollowBarExtension(t, h, dia, "ZED Front End"), "ZED Front End").Some?
      <==> HollowBarExtension(t, h, dia, "ZED Front End") != NoBar
  {
  }

  /** The plunger bar of a length in mm. */
  function PlungerBarName(length: nat): string
  {
    if length == 550 then "Plunger Bars - 550mm Tongue & grooved one end + M24 thread"
    else if length == 650 then "Plunger Bars - 650mm Tongue & grooved one end + M24 thread"
    else if length == 750 then "Plunger Bars - 750mm Tongue & grooved one end + M24 thread"
    else ""
  }

  /** `_get_plunger_bar`: the plunger-bar length in mm, 0 for none. */
  function PlungerBarLength(h: DriveHead, dia: nat): nat
  {
    if LightHead(h) && dia >= 1 then 550
    else if h in {Square130, Digga130, Square150, Imt150, Mait200} && dia < 900 then 550
    else if MidHead(h) && dia >= 900 then 650
    else if h in {Bauer200, CustomHead} && dia < 900 then 650
    else if HeavyHead(h) && dia >= 900 then 750
    else 0
  }

  /** `_get_plunger_handler_bar`: as `_get_plunger_bar` but without the custom head. */
  function PlungerHandlerBarLength(h: DriveHead, dia: nat): nat
  {
    if LightHead(h) && dia >= 1 then 550
    else if h in {Square130, Digga130, Square150, Imt150, Mait200} && dia < 900 then 550
    else if MidHead(h) && dia >= 900 then 650
    else if h == Bauer200 && dia < 900 then 650
    else if HeavyHead(h) && dia >= 900 then 750
    else 0
  }

  /**
   * The two plunger-bar rules differ only for a custom head below 900mm,
   * which gets a 650mm bar on a plunger barrel and none on a plunger and
   * handle barrel; a longer bar goes with a heavier head or a wider barrel.
   */
  lemma PlungerBarsAgree(h: DriveHead, dia: nat)
    ensures PlungerBarLength(h, dia) != PlungerHandlerBarLength(h, dia) <==> h == CustomHead && dia < 900
    ensures PlungerBarLength(h, dia) == 750 <==> HeavyHead(h) && dia >= 900
    ensures PlungerBarLength(h, dia) == 0 <==> h == OtherHead || (LightHead(h) && dia == 0) || (h == CustomHead && dia >= 900)
  {
  }

  /**
   * `_get_hinge_handle_bar_qty` and `_get_db_handle_bar_qty` (the same rule):
   * the barrel height in metres plus an allowance that depends on the diameter.
   */
  function HingeHandleBarQty(height: nat, dia: nat): (r: real)
    ensures height as real / 1000.0 + 0.5 <= r <= height as real / 1000.0 + 0.67
  {
    var m := height as real / 1000.0;
    if dia < 350 then m + 0.5
    else if 350 <= dia < 400 then m + 0.635
    else if 400 <= dia < 500 then m + 0.67
    else m + 0.5
  }

  /** `_get_handle_bar_qty`: the same length with a smaller allowance. */
  function HandleBarQty(height: nat, dia: nat): (r: real)
    ensures r > 0.0
  {
    var m := height as real / 1000.0;
    if dia < 350 then m + 0.1
    else if 350 <= dia < 400 then m + 0.235
    else if 400 <= dia < 500 then m + 0.27
    else m + 0.1
  }

  /** The hinged handle bar is always 0.4m longer than the plain one. */
  lemma HandleBarsDiffer(height: nat, dia: nat)
    ensures HingeHandleBarQty(height, dia) == HandleBarQty(height, dia) + 0.4
  {
  }

  /** `convert_mm`: millimetres to metres. */
  function Metres(mm: int): real { mm as real / 1000.0 }

  /**
   * `_get_pcf1` (`clearance` 30) and `_get_db_pcf1` (`clearance` 40): a 200mm
   * channel for barrels of 2000mm and more, its length in metres twice the
   * diameter less the clearance, less 300mm.
   */
  function Pcf1(dia: nat, clearance: int): (r: Option<Line>)
    requires clearance == 30 || clearance == 40
    ensures r.Some? <==> dia >= 2000
    ensures r.Some? ==> Named(r.value) && r.value.qty > 0.0
  {
    var qty := Metres((dia - clearance) * 2 - 300);
    if dia >= 2000 then Some(Line("200mm PFC - Parallel Flange Channel", qty)) else None
  }

  /** `_get_pcf2`: a 250mm channel from 2000mm, a 300mm one from 2500mm. */
  function Pcf2(dia: nat): (r: Option<Line>)
    ensures r.Some? <==> dia >= 2000
    ensures r.Some? ==> Named(r.value) && r.value.qty == Metres(dia - 240) && r.value.qty > 0.0
  {
    var qty := Metres(dia - 240);
    if 2000 <= dia < 2500 then Some(Line("250mm PFC - Parallel Flange Channel", qty))
    else if dia >= 2500 then Some(Line("300mm PFC - Parallel Flange Channel", qty))
    else None
  }

  /** The arrow head by diameter. */
  function ArrowHead(dia: nat): (r: string)
    ensures r != ""
  {
    if dia < 350 then "Arrow Head - Small"
    else if 350 <= dia < 1600 then "Arrow Head - Medium"
    else "Arrow Head - Large"
  }

  /**
   * The number of barrel wear pads: the circumference of the diameter less
   * the clearance (with pi as 3.142), doubled, per 200mm, rounded to an even number.
   */
  function WearPads(dia: nat, clearance: int): (r: int)
    ensures IsEven(r)
    ensures -1.0 <= r as real - ((dia - clearance) as real * 3.142 * 2.0) / 200.0 <= 1.0
  {
    AugerTeeth.RoundToNearestEven(((dia - clearance) as real * 3.142 * 2.0) / 200.0)
  }

  /** The hinge parts of a barrel with a handle: hinge, hinge bush, handle bar and two locking washers. */
  datatype HingeSet = HingeSet(hinge: string, bush: string, handleBar: string, lock1: string, lock2: string)

  /** A hinge set with the 35mm handle bar and its washers. */
  function Bar35(hinge: string, bush: string): HingeSet
  {
    HingeSet(hinge, bush, "4140 Bright Bar - 35mm", "36mm Locking Handle Washers / Bush", "35mm Locking Handle Washers / Bush")
  }

  /** A hinge set with the 50mm handle bar and its washers. */
  function Bar50(hinge: string, bush: string): HingeSet
  {
    HingeSet(hinge, bush, "4140 Bright bar - 50mm", "51mm Locking Handle Washers / Bush", "50mm Locking Handle Washers / Bush")
  }

  /** `_components_cb_mapping`: the hinge sets of cleaning buckets with a handle. */
  const BucketHinges: seq<(Span, HingeSet)> := [
    (Span(0, 350), HingeSet("35mm Hinge - 75mm Long", "35mm Hinge - Bush", "4140 Bright Bar - 25mm",
                            "26mm Locking Handle Washers / Bush", "25mm Locking Handle Washers / Bush")),
    (Span(350, 400), Bar35("35mm Hinge - 75mm Long", "35mm Hinge - Bush")),
    (Span(400, 500), Bar35("35mm Hinge - 110mm Long", "35mm Hinge - Bush")),
    (Span(500, 550), Bar35("45mm Hinge - 180mm Long", "45mm Hinge - Bush")),
    (Span(550, 650), Bar35("45mm Hinge - 180mm Long", "45mm Hinge - Bush")),
    (Span(650, 800), Bar35("45mm Hinge - 240mm Long", "45mm Hinge - Bush")),
    (Span(800, 1500), Bar35("45mm Hinge - 320mm long", "45mm Hinge - Bush")),
    (Span(1500, 1600), Bar35("60mm Hinge - 400mm long", "60mm Hinge - Bush")),
    (Span(1600, 1850), Bar50("60mm Hinge - 400mm long", "60mm Hinge - Bush")),
    (Span(1850, 2000), Bar50("100mm Hinge - 450mm long", "100mm Hinge - Bush")),
    (Span(2000, 2500), Bar50("100mm Hinge - 450mm long", "100mm Hinge - Bush")),
    (Span(2500, 5000), Bar50("100mm Hinge - 550mm long", "100mm Hinge - Bush"))
  ]

  /** `_components_db_mapping`: the hinge sets of drilling barrels with a handle. */
  const DrillHinges: seq<(Span, HingeSet)> := [
    (Span(0, 350), HingeSet("35mm Hinge - 75mm Long", "35mm Hinge - Bush", "4140 Bright Bar - 25mm",
                            "26mm Locking Handle Washers / Bush", "25mm Locking Handle Washers / Bush")),
    (Span(350, 400), Bar35("35mm Hinge - 75mm Long", "35mm Hinge - Bush")),
    (Span(400, 500), Bar35("35mm Hinge - 110mm Long", "35mm Hinge - Bush")),
    (Span(500, 550), Bar35("45mm Hinge - 180mm Long", "45mm Hinge - Bush")),
    (Span(550, 650), Bar35("45mm Hinge - 180mm Long", "45mm Hinge - Bush")),
    (Span(650, 800), Bar35("45mm Hinge - 240mm Long", "45mm Hinge - Bush")),
    (Span(800, 1050), Bar35("45mm Hinge - 320mm long", "45mm Hinge - Bush")),
    (Span(1050, 1400), Bar35("60mm Hinge - 250mm long", "60mm Hinge - Bush")),
    (Span(1400, 1600), Bar35("60mm Hinge - 400mm long", "60mm Hinge - Bush")),
    (Span(1600, 1850), Bar50("60mm Hinge - 400mm long", "60mm Hinge - Bush")),
    (Span(1850, 2000), Bar50("100mm Hinge - 450mm long", "100mm Hinge - Bush")),
    (Span(2000, 2500), Bar50("100mm Hinge - 450mm long", "100mm Hinge - Bush")),
    (Span(2500, 5000), Bar50("100mm Hinge - 550mm long", "100mm Hinge - Bush"))
  ]

  /** The hinge and hinge bush of a barrel with a plunger only. */
  datatype PlungerHinge = PlungerHinge(hinge: string, bush: string)

  /** The hinges of `_get_cb_plunger`. */
  const BucketPlungerHinges: seq<(Span, PlungerHinge)> := [
    (Span(0, 400), PlungerHinge("35mm Hinge - 75mm Long", "35mm Hinge - Bush")),
    (Span(400, 500), PlungerHinge("35mm Hinge - 110mm Long", "35mm Hinge - Bush")),
    (Span(500, 550), PlungerHinge("45mm Hinge - 180mm Long", "45mm Hinge - Bush")),
    (Span(550, 650), PlungerHinge("45mm Hinge - 180mm Long", "45mm Hinge - Bush")),
    (Span(650, 800), PlungerHinge("45mm Hinge - 240mm Long", "45mm Hinge - Bush")),
    (Span(800, 1500), PlungerHinge("45mm Hinge - 320mm long", "45mm Hinge - Bush")),
    (Span(1500, 1850), PlungerHinge("60mm Hinge - 400mm long", "60mm Hinge - Bush")),
    (Span(1850, 2000), PlungerHinge("100mm Hinge - 450mm long", "100mm Hinge - Bush")),
    (Span(2000, 2500), PlungerHinge("100mm Hinge - 450mm long", "100mm Hinge - Bush")),
    (Span(2500, 5000), PlungerHinge("100mm Hinge - 550mm long", "100mm Hinge - Bush"))
  ]

  /** The hinges of `_get_db_plunger`. */
  const DrillPlungerHinges: seq<(Span, PlungerHinge)> := [
    (Span(0, 400), PlungerHinge("35mm Hinge - 75mm Long", "35mm Hinge - Bush")),
    (Span(400, 500), PlungerHinge("35mm Hinge - 110mm Long", "35mm Hinge - Bush")),
    (Span(500, 550), PlungerHinge("45mm Hinge - 180mm Long", "45mm Hinge - Bush")),
    (Span(550, 650), PlungerHinge("45mm Hinge - 180mm Long", "45mm Hinge - Bush")),
    (Span(650, 800), PlungerHinge("45mm Hinge - 240mm Long", "45mm Hinge - Bush")),
    (Span(800, 1050), PlungerHinge("45mm Hinge - 320mm long", "45mm Hinge - Bush")),
    (Span(1050, 1400), PlungerHinge("60mm Hinge - 250mm long", "60mm Hinge - Bush")),
    (Span(1400, 1850), PlungerHinge("60mm Hinge - 400mm long", "60mm Hinge - Bush")),
    (Span(1850, 2000), PlungerHinge("100mm Hinge - 450mm long", "100mm Hinge - Bush")),
    (Span(2000, 2500), PlungerHinge("100mm Hinge - 450mm long", "100mm Hinge - Bush")),
    (Span(2500, 5000), PlungerHinge("100mm Hinge - 550mm long", "100mm Hinge - Bush"))
  ]

  /** `_get_hinge_cb_component3`: the hinge pin bar and its length in metres. */
  const BucketHingeBars: seq<(Span, Line)> := [
    (Span(0, 350), Line("4140 Bright Bar - 35mm", 0.14)),
    (Span(500, 550), Line("4140 Bright Bar - 45mm", 0.26)),
    (Span(550, 650), Line("4140 Bright Bar - 45mm", 0.26)),
    (Span(650, 800), Line("4140 Bright Bar - 45mm", 0.32)),
    (Span(800, 1500), Line("4140 Bright Bar - 45mm", 0.40)),
    (Span(1500, 1600), Line("4140 Bright Bar - 60mm", 0.56)),
    (Span(1600, 1850), Line("4140 Bright Bar - 60mm", 0.56)),
    (Span(1850, 2000), Line("4140 Bright Bar - 100mm", 1.15)),
    (Span(2000, 2500), Line("4140 Bright Bar - 100mm", 1.15)),
    (Span(2500, 5000), Line("4140 Bright Bar - 100mm", 1.25))
  ]

  /** `_get_hinge_cb_plunger_component3` */
  const BucketPlungerHingeBars: seq<(Span, Line)> := [
    (Span(0, 400), Line("4140 Bright Bar - 35mm", 0.14)),
    (Span(400, 500), Line("4140 Bright Bar - 45mm", 0.17)),
    (Span(500, 550), Line("4140 Bright Bar - 45mm", 0.26)),
    (Span(550, 650), Line("4140 Bright Bar - 45mm", 0.26)),
    (Span(650, 800), Line("4140 Bright Bar - 45mm", 0.32)),
    (Span(800, 1500), Line("4140 Bright Bar - 60mm", 0.40)),
    (Span(1500, 1850), Line("4140 Bright Bar - 60mm", 0.56)),
    (Span(1850, 2000), Line("4140 Bright Bar - 100mm", 1.15)),
    (Span(2000, 2500), Line("4140 Bright Bar - 100mm", 1.15)),
    (Span(2500, 5000), Line("4140 Bright Bar - 100mm", 1.25))
  ]

  /** `_get_hinge_db_component3` */
  const DrillHingeBars: seq<(Span, Line)> := [
    (Span(0, 350), Line("4140 Bright Bar - 35mm", 0.14)),
    (Span(500, 550), Line("4140 Bright Bar - 45mm", 0.26)),
    (Span(550, 650), Line("4140 Bright Bar - 45mm", 0.26)),
    (Span(650, 800), Line("4140 Bright Bar - 45mm", 0.32)),
    (Span(800, 1050), Line("4140 Bright Bar - 45mm", 0.40)),
    (Span(1050, 1400), Line("4140 Bright Bar - 60mm", 0.41)),
    (Span(1400, 1600), Line("4140 Bright Bar - 60mm", 0.56)),
    (Span(1600, 1850), Line("4140 Bright Bar - 60mm", 0.56)),
    (Span(1850, 2000), Line("4140 Bright Bar - 100mm", 1.15)),
    (Span(2000, 2500), Line("4140 Bright Bar - 100mm", 1.15)),
    (Span(2500, 5000), Line("4140 Bright Bar - 100mm", 1.25))
  ]

  /** `_get_hinge_db_plunger_comp3` */
  const DrillPlungerHingeBars: seq<(Span, Line)> := [
    (Span(0, 400), Line("4140 Bright Bar - 35mm", 0.14)),
    (Span(400, 500), Line("4140 Bright Bar - 35mm", 0.17)),
    (Span(500, 550), Line("4140 Bright Bar - 45mm", 0.26)),
    (Span(550, 650), Line("4140 Bright Bar - 45mm", 0.26)),
    (Span(650, 800), Line("4140 Bright Bar - 45mm", 0.32)),
    (Span(800, 1050), Line("4140 Bright Bar - 45mm", 0.40)),
    (Span(1050, 1400), Line("4140 Bright Bar - 60mm", 0.41)),
    (Span(1400, 1850), Line("4140 Bright Bar - 60mm", 0.56)),
    (Span(1850, 2000), Line("4140 Bright Bar - 100mm", 1.15)),
    (Span(2000, 2500), Line("4140 Bright Bar - 100mm", 1.15)),
    (Span(2500, 5000), Line("4140 Bright Bar - 100mm", 1.25))
  ]

  // The ranges of each hinge table, read off its literal.
  lemma BucketHingesTile() ensures Tiles(BucketHinges, 0, 5000) {}
  lemma BucketHingesNarrow() ensures NoWide(BucketHinges) {}
  lemma DrillHingesTile() ensures Tiles(DrillHinges, 0, 5000) {}
  lemma DrillHingesNarrow() ensures NoWide(DrillHinges) {}
  lemma BucketPlungerHingesTile() ensures Tiles(BucketPlungerHinges, 0, 5000) && NoWide(BucketPlungerHinges) {}
  lemma DrillPlungerHingesTile() ensures Tiles(DrillPlungerHinges, 0, 5000) && NoWide(DrillPlungerHinges) {}
  lemma BucketPlungerHingeBarsTile() ensures Tiles(BucketPlungerHingeBars, 0, 5000) && NoWide(BucketPlungerHingeBars) {}
  lemma DrillPlungerHingeBarsTile() ensures Tiles(DrillPlungerHingeBars, 0, 5000) && NoWide(DrillPlungerHingeBars) {}
  lemma BucketHingeBarsTile() ensures TilesAround(BucketHingeBars, 0, 350, 500, 5000) && NoWide(BucketHingeBars) {}
  lemma DrillHingeBarsTile() ensures TilesAround(DrillHingeBars, 0, 350, 500, 5000) && NoWide(DrillHingeBars) {}

  /**
   * The hinge tables resolve every diameter below 5000mm and none from
   * 5000mm up, each to the one range that contains it.
   */
  lemma HingeTablesResolve(d: nat)
    ensures Select(BucketHinges, d).Some? <==> d < 5000
    ensures Select(DrillHinges, d).Some? <==> d < 5000
    ensures Select(BucketPlungerHinges, d).Some? <==> d < 5000
    ensures Select(DrillPlungerHinges, d).Some? <==> d < 5000
    ensures Select(BucketPlungerHingeBars, d).Some? <==> d < 5000
    ensures Select(DrillPlungerHingeBars, d).Some? <==> d < 5000
  {
    BucketHingesTile();
    BucketHingesNarrow();
    SelectTiled(BucketHinges, 0, 5000, d);
    DrillHingesTile();
    DrillHingesNarrow();
    SelectTiled(DrillHinges, 0, 5000, d);
    BucketPlungerHingesTile();
    SelectTiled(BucketPlungerHinges, 0, 5000, d);
    DrillPlungerHingesTile();
    SelectTiled(DrillPlungerHinges, 0, 5000, d);
    BucketPlungerHingeBarsTile();
    SelectTiled(BucketPlungerHingeBars, 0, 5000, d);
    DrillPlungerHingeBarsTile();
    SelectTiled(DrillPlungerHingeBars, 0, 5000, d);
  }

  /**
   * The hinge pin bars of cleaning buckets and drilling barrels with a
   * handle skip the diameters from 350 to 500mm: those barrels get no pin bar line.
   */
  lemma HingeBarGap(d: nat)
    ensures Select(BucketHingeBars, d).Some? <==> d < 350 || 500 <= d < 5000
    ensures Select(DrillHingeBars, d).Some? <==> d < 350 || 500 <= d < 5000
  {
    BucketHingeBarsTile();
    SelectAround(BucketHingeBars, 0, 350, 500, 5000, d);
    DrillHingeBarsTile();
    SelectAround(DrillHingeBars, 0, 350, 500, 5000, d);
  }
}
