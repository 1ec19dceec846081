/**
 * Fixed parts of a bored-pile auger (product_product.py): base plate, tube
 * gusset, ZED centre, centre tube lengths and flight brace.
 *
 * Lengths are attribute numbers in millimetres; a centre tube's quantity is
 * its length in metres rounded to hundredths. The overall length is the first
 * run of digits in the "Overall Length" attribute, 0 when it has none.
 */
module AugerParts {
  import opened BomWrappers
  import opened PyNum
  import opened Bom
  import opened RangeTable
  import PyText

  const BasePlateExcluded: seq<string> := [
    "Drive Head - 65mm Round", "Drive Head - 65mm Square", "Drive Head - 75mm Square",
    "Drive Head - 4\" Lo Drill", "Drive Head - 3\" Hex", "Drive Head - 2\" Hex", "Custom Head"
  ]

  const BasePlateSizes: seq<(string, int)> := [
    ("Drive Head - 100mm Square", 100),
    ("Drive Head - 110mm Square", 110),
    ("Drive Head - 130mm Square", 130),
    ("Drive Head - 130mm Square DIGGA", 130),
    ("Drive Head - 150mm Square", 150),
    ("Drive Head - 150mm Square IMT", 150)
  ]

  /** The base plate named after a head size in millimetres. */
  function BasePlateName(size: nat): string
  {
    "Base Plate - " + PyText.NatText(size) + "mm Head"
  }

  /**
   * `_get_base_plate`: no base plate for the seven excluded heads, one plate
   * sized for the head for the six mapped heads, and the 200mm plate for any
   * other head.
   */
  function BasePlate(head: string): (r: Line)
    ensures head in BasePlateExcluded <==> r == NoLine
    ensures head !in BasePlateExcluded ==>
      r.qty == 1.0 && exists size :: size in {100, 110, 130, 150, 200} && r.name == BasePlateName(size)
    ensures head !in BasePlateExcluded && !HasKey(BasePlateSizes, head) ==> r == Line(BasePlateName(200), 1.0)
    ensures head !in BasePlateExcluded && HasKey(BasePlateSizes, head) ==>
      r == Line(BasePlateName(Get(BasePlateSizes, head).value), 1.0)
  {
    if head in BasePlateExcluded then NoLine
    else Line(BasePlateName(GetOr(BasePlateSizes, head, 200)), 1.0)
  }

  /** The plate's size can be read back from its name. */
  lemma BasePlateNameInjective(m: nat, n: nat)
    requires BasePlateName(m) == BasePlateName(n)
    ensures m == n
  {
    var a := PyText.NatText(m);
    var b := PyText.NatText(n);
    var p := "Base Plate - ";
    assert BasePlateName(m)[|p|..|BasePlateName(m)| - |"mm Head"|] == a;
    assert BasePlateName(n)[|p|..|BasePlateName(n)| - |"mm Head"|] == b;
    PyText.NatTextInjective(m, n);
  }

  /** A gusset for a drive of `drive` mm and a tube of `tube` mm. */
  datatype Gusset = Gusset(drive: nat, tube: nat)

  /** "Gusset - {drive}mm Drive {tube}mm Tube" */
  function GussetName(g: Gusset): (r: string)
    ensures r != ""
  {
    "Gusset - " + PyText.NatText(g.drive) + "mm Drive " + PyText.NatText(g.tube) + "mm Tube"
  }

  /** The groups of drive heads that share a gusset table. */
  datatype HeadGroup = Head100To110 | Head130 | Head150 | Head200

  function GussetGroup(head: string): Option<HeadGroup>
  {
    if head in ["Drive Head - 100mm Square", "Drive Head - 110mm Square"] then Some(Head100To110)
    else if head in ["Drive Head - 130mm Square", "Drive Head - 130mm Square DIGGA"] then Some(Head130)
    else if head in ["Drive Head - 150mm Square", "Drive Head - 150mm Square IMT"] then Some(Head150)
    else if head in ["Drive Head - 200mm Square Bauer", "Drive Head - 200mm Square MAIT"] then Some(Head200)
    else None
  }

  const Gusset100To110: seq<(string, Gusset)> := [
    ("Hollow Bar - OD128mm WT 11.5mm", Gusset(100, 150)),
    ("Hollow Bar - OD150mm ID120mm", Gusset(100, 150)),
    ("Hollow Bar - OD152mm WT 26mm", Gusset(100, 150)),
    ("Hollow Bar - OD152mm WT 33.5mm", Gusset(100, 150)),
    ("Hollow Bar - OD168mm WT 21.5mm", Gusset(100, 170)),
    ("Hollow Bar - OD168mm WT 29mm", Gusset(100, 170)),
    ("Hollow Bar - OD170mm ID140mm", Gusset(100, 170)),
    ("Hollow Bar - OD180 ID150", Gusset(100, 170)),
    ("Hollow bar - OD200 ID150", Gusset(100, 170)),
    ("Hollow Bar - OD219mm WT 25mm", Gusset(100, 219)),
    ("Pipe - OD168mm WT6.4mm", Gusset(100, 170)),
    ("Pipe - OD168mm WT4.8mm", Gusset(100, 170)),
    ("Pipe - OD168mm WT11mm", Gusset(100, 170)),
    ("Pipe - OD177mm WT 8mm", Gusset(100, 170)),
    ("Pipe - OD219mm WT8.2mm", Gusset(100, 219)),
    ("Pipe - OD219mm WT6.4mm", Gusset(100, 219)),
    ("Pipe - OD219mm WT12.7mm", Gusset(100, 219))
  ]

  const Gusset130: seq<(string, Gusset)> := [
    ("Hollow Bar - OD150mm ID120mm", Gusset(130, 150)),
    ("Hollow Bar - OD152mm WT 26mm", Gusset(130, 150)),
    ("Hollow Bar - OD152mm WT 33.5mm", Gusset(130, 150)),
    ("Hollow Bar - OD168mm WT 21.5mm", Gusset(130, 170)),
    ("Hollow Bar - OD168mm WT 29mm", Gusset(130, 170)),
    ("Hollow Bar - OD170mm ID140mm", Gusset(130, 170)),
    ("Hollow Bar - OD180 ID150", Gusset(130, 170)),
    ("Hollow bar - OD200 ID150", Gusset(130, 170)),
    ("Hollow Bar - OD219mm WT 25mm", Gusset(130, 219)),
    ("hollow bar - OD273mm WT14", Gusset(130, 273)),
    ("Hollow Bar - OD273mm WT 25mm", Gusset(130, 273)),
    ("Hollow Bar - OD273mm WT 32mm", Gusset(130, 273)),
    ("Hollow Bar - OD323mm WT25mm", Gusset(130, 323)),
    ("Hollow Bar - OD323mm WT30mm", Gusset(130, 323)),
    ("Hollow Bar - OD356 ID306", Gusset(130, 323)),
    ("Hollow bar - OD457mm T35mm", Gusset(130, 323)),
    ("Hollow bar - OD457mm T25mm", Gusset(130, 323)),
    ("Pipe - OD168mm WT6.4mm", Gusset(130, 170)),
    ("Pipe - OD168mm WT4.8mm", Gusset(130, 170)),
    ("Pipe - OD168mm WT11mm", Gusset(130, 170)),
    ("Pipe - OD177mm WT 8mm", Gusset(130, 170)),
    ("Pipe - OD219mm WT8.2mm", Gusset(130, 219)),
    ("Pipe - OD219mm WT6.4mm", Gusset(130, 219)),
    ("Pipe - OD219mm WT12.7mm", Gusset(130, 219)),
    ("Pipe - OD273mm WT9.3mm", Gusset(130, 273)),
    ("Pipe - OD273mm WT6.4mm", Gusset(130, 273)),
    ("Pipe - OD273mm WT12.7mm", Gusset(130, 273)),
    ("Pipe - OD323mm WT9.75mm", Gusset(130, 323)),
    ("Pipe - OD323mm WT9.5mm", Gusset(130, 323)),
    ("Pipe - OD323mm WT6.4mm", Gusset(130, 323)),
    ("Pipe - OD323mm WT12.7mm", Gusset(130, 323)),
    ("Pipe - OD355 WT9.5mm", Gusset(130, 323)),
    ("Pipe - OD355mm WT12.7mm", Gusset(130, 323)),
    ("Pipe - 406mm 9.5mm WT", Gusset(130, 323)),
    ("Pipe - OD406mm WT12.7mm", Gusset(130, 323)),
    ("Pipe - OD457mm WT9.5mm", Gusset(130, 323)),
    ("Pipe - OD457mm WT15.9mm", Gusset(130, 323))
  ]

  const Gusset150: seq<(string, Gusset)> := [
    ("Hollow Bar - OD150mm ID120mm", Gusset(150, 150)),
    ("Hollow Bar - OD152mm WT 26mm", Gusset(150, 150)),
    ("Hollow Bar - OD152mm WT 33.5mm", Gusset(150, 150)),
    ("Hollow Bar - OD168mm WT 21.5mm", Gusset(150, 170)),
    ("Hollow Bar - OD168mm WT 29mm", Gusset(150, 170)),
    ("Hollow Bar - OD170mm ID140mm", Gusset(150, 170)),
    ("Hollow Bar - OD180 ID150", Gusset(150, 170)),
    ("Hollow bar - OD200 ID150", Gusset(150, 170)),
    ("Hollow Bar - OD219mm WT 25mm", Gusset(150, 170)),
    ("Hollow bar - OD273mm WT14", Gusset(150, 273)),
    ("Hollow Bar - OD273mm WT 25mm", Gusset(150, 273)),
    ("Hollow Bar - OD273mm WT 32mm", Gusset(150, 273)),
    ("Hollow Bar - OD323mm WT25mm", Gusset(150, 273)),
    ("Hollow Bar - OD323mm WT30mm", Gusset(150, 273)),
    ("Hollow Bar - OD356 ID306", Gusset(150, 273)),
    ("Hollow bar - OD457mm T35mm", Gusset(150, 273)),
    ("Hollow bar - OD457mm T25mm", Gusset(150, 273)),
    ("Pipe - OD168mm WT6.4mm", Gusset(130, 170)),
    ("Pipe - OD168mm WT4.8mm", Gusset(130, 170)),
    ("Pipe - OD168mm WT11mm", Gusset(130, 170)),
    ("Pipe - OD177mm WT 8mm", Gusset(130, 170)),
    ("Pipe - OD219mm WT8.2mm", Gusset(130, 219)),
    ("Pipe - OD219mm WT6.4mm", Gusset(130, 219)),
    ("Pipe - OD219mm WT12.7mm", Gusset(130, 219)),
    ("Pipe - OD273mm WT9.3mm", Gusset(150, 273)),
    ("Pipe - OD273mm WT6.4mm", Gusset(150, 273)),
    ("Pipe - OD273mm WT12.7mm", Gusset(150, 273)),
    ("Pipe - OD323mm WT9.75mm", Gusset(150, 273)),
    ("Pipe - OD323mm WT9.5mm", Gusset(150, 273)),
    ("Pipe - OD323mm WT6.4mm", Gusset(150, 273)),
    ("Pipe - OD323mm WT12.7mm", Gusset(150, 273)),
    ("Pipe - OD355 WT9.5mm", Gusset(150, 273)),
    ("Pipe - OD355mm WT12.7mm", Gusset(150, 273)),
    ("Pipe - 406mm 9.5mm WT", Gusset(150, 273)),
    ("Pipe - OD406mm WT12.7mm", Gusset(150, 273)),
    ("Pipe - OD457mm WT9.5mm", Gusset(150, 273)),
    ("Pipe - OD457mm WT15.9mm", Gusset(150, 273))
  ]

  const Gusset200: seq<(string, Gusset)> := [
    ("Hollow Bar - OD168mm WT 21.5mm", Gusset(200, 170)),
    ("Hollow Bar - OD168mm WT 29mm", Gusset(200, 170)),
    ("Hollow Bar - OD170mm ID140mm", Gusset(200, 170)),
    ("Hollow Bar - OD180 ID150", Gusset(200, 170)),
    ("Hollow bar - OD200 ID150", Gusset(200, 170)),
    ("Hollow Bar - OD219mm WT 25mm", Gusset(200, 170)),
    ("Hollow bar - OD273mm WT14", Gusset(200, 273)),
    ("Hollow Bar - OD273mm WT 25mm", Gusset(200, 273)),
    ("Hollow Bar - OD273mm WT 32mm", Gusset(200, 273)),
    ("Hollow Bar - OD323mm WT25mm", Gusset(200, 273)),
    ("Hollow Bar - OD323mm WT30mm", Gusset(200, 273)),
    ("Hollow Bar - OD356 ID306", Gusset(200, 273)),
    ("Hollow bar - OD457mm T35mm", Gusset(200, 273)),
    ("Hollow bar - OD457mm T25mm", Gusset(200, 273)),
    ("Pipe - OD168mm WT6.4mm", Gusset(200, 170)),
    ("Pipe - OD168mm WT4.8mm", Gusset(200, 170)),
    ("Pipe - OD168mm WT11mm", Gusset(200, 170)),
    ("Pipe - OD177mm WT 8mm", Gusset(200, 170)),
    ("Pipe - OD219mm WT8.2mm", Gusset(200, 170)),
    ("Pipe - OD219mm WT6.4mm", Gusset(200, 170)),
    ("Pipe - OD219mm WT12.7mm", Gusset(200, 170)),
    ("Pipe - OD273mm WT9.3mm", Gusset(200, 273)),
    ("Pipe - OD273mm WT6.4mm", Gusset(200, 273)),
    ("Pipe - OD273mm WT12.7mm", Gusset(200, 273)),
    ("Pipe - OD323mm WT9.75mm", Gusset(200, 273)),
    ("Pipe - OD323mm WT9.5mm", Gusset(200, 273)),
    ("Pipe - OD323mm WT6.4mm", Gusset(200, 273)),
    ("Pipe - OD323mm WT12.7mm", Gusset(200, 273)),
    ("Pipe - OD355 WT9.5mm", Gusset(200, 273)),
    ("Pipe - OD355mm WT12.7mm", Gusset(200, 273)),
    ("Pipe - 406mm 9.5mm WT", Gusset(200, 273)),
    ("Pipe - OD406mm WT12.7mm", Gusset(200, 273)),
    ("Pipe - OD457mm WT9.5mm", Gusset(200, 273)),
    ("Pipe - OD457mm WT15.9mm", Gusset(200, 273))
  ]

  const ZedCentres: seq<(string, string)> := [
    ("Hollow Bar - OD150mm ID120mm", Zed150),
    ("Hollow Bar - OD152mm WT 26mm", Zed150),
    ("Hollow Bar - OD152mm WT 33.5mm", Zed150),
    ("Hollow Bar - OD168mm WT 21.5mm", Zed168),
    ("Hollow Bar - OD168mm WT 29mm", Zed168),
    ("Hollow Bar - OD170mm ID140mm", Zed168),
    ("Hollow Bar - OD219mm WT 25mm", Zed219),
    ("hollow bar - OD273mm WT14", Zed273),
    ("Hollow Bar - OD273mm WT 25mm", Zed273),
    ("Hollow Bar - OD273mm WT 32mm", Zed273),
    ("Pipe - OD168mm WT11mm", Zed168),
    ("Pipe - OD219mm WT12.7mm", Zed219),
    ("Pipe - OD273mm WT12.7mm", Zed273)
  ]

  function GussetTable(g: HeadGroup): seq<(string, Gusset)>
  {
    match g
    case Head100To110 => Gusset100To110
    case Head130 => Gusset130
    case Head150 => Gusset150
    case Head200 => Gusset200
  }

  /**
   * `_get_tube_guesset`: one gusset exactly when the head belongs to one of
   * the four groups and the centre tube is in that group's table; otherwise the
   * `(None, 0)` placeholder.
   */
  function TubeGusset(head: string, tube: string): (r: Line)
    ensures r != NoLine <==> GussetGroup(head).Some? && HasKey(GussetTable(GussetGroup(head).value), tube)
    ensures r != NoLine ==>
      r.qty == 1.0 && GussetGroup(head).Some?
      && exists g :: (tube, g) in GussetTable(GussetGroup(head).value) && r.name == GussetName(g)
  {
    match GussetGroup(head)
    case None => NoLine
    case Some(g) =>
      match Get(GussetTable(g), tube)
      case None => NoLine
      case Some(gusset) => Line(GussetName(gusset), 1.0)
  }

  /**
   * `_get_zed_center_component_map`: the ZED centre that suits a centre
   * tube, "" for a tube without one.
   */
  function ZedCentre(tube: string): (r: string)
    ensures r == "" <==> !HasKey(ZedCentres, tube)
    ensures r != "" ==> r in ZedCentreNames
  {
    ZedCentresNamed();
    assert |Zed150| == |Zed168| == |Zed219| == |Zed273| == 16;
    GetOr(ZedCentres, tube, "")
  }

  /** The four ZED centres the table names. */
  const Zed150 := "ZED Centre 150mm"
  const Zed168 := "ZED Centre 168mm"
  const Zed219 := "ZED Centre 219mm"
  const Zed273 := "ZED Centre 273mm"
  const ZedCentreNames: seq<string> := [Zed150, Zed168, Zed219, Zed273]

  /** Every tube in the table maps to one of the four named ZED centres. */
  lemma ZedCentresNamed()
    ensures forall e :: e in ZedCentres ==> e.1 in ZedCentreNames
  {
  }

  /** The drive-head heights of `_get_center_tube_zed`: the head and, for most heads, its base plate. */
  const ZedHeadHeights: map<string, seq<int>> := map[
    "Drive Head - 65mm Round" := [100],
    "Drive Head - 65mm Square" := [100],
    "Drive Head - 75mm Square" := [150],
    "Drive Head - 100mm Square" := [175, 25],
    "Drive Head - 110mm Square" := [240, 25],
    "Drive Head - 130mm Square" := [260, 32],
    "Drive Head - 130mm Square DIGGA" := [260, 32],
    "Drive Head - 150mm Square" := [260, 32],
    "Drive Head - 150mm Square IMT" := [260, 32],
    "Drive Head - 200mm Square Bauer" := [475, 32],
    "Drive Head - 200mm Square MAIT" := [345, 32],
    "Drive Head - 4\" Lo Drill" := [332, 25],
    "Drive Head - 3\" Hex" := [155],
    "Drive Head - 2\" Hex" := [135]
  ]

  /** The length in millimetres each ZED centre takes from the centre tube. */
  const ZedCentreHeights: map<string, real> := map[
    "ZED Centre 150mm" := 133.5,
    "ZED Centre 168mm" := 147.5,
    "ZED Centre 219mm" := 163.0,
    "ZED Centre 273mm" := 163.0
  ]

  /** The length in metres, rounded to hundredths, of a tube `length - taken` millimetres long. */
  function TubeMetres(length: int, taken: real): (r: real)
    ensures IsHundredths(r)
    ensures -0.005 <= r - (length as real - taken) / 1000.0 <= 0.005
  {
    Round2((length as real - taken) / 1000.0)
  }

  /**
   * `_get_center_tube_zed`: the centre tube, its length being the overall
   * length less the head, its base plate and the ZED centre, or 0 for a tube
   * without a ZED centre. A head outside the table raises `TypeError` and a
   * head listed without a base-plate height raises `IndexError`.
   */
  function ZedCentreTube(length: int, head: string, tube: string, centre: string): (r: Result<Line>)
    ensures r.Fail? <==> head !in ZedHeadHeights || |ZedHeadHeights[head]| < 2
    ensures r.Fail? ==> r.error == (if head in ZedHeadHeights then IndexError else TypeError)
    ensures r.Ok? ==> r.value.name == tube
    ensures r.Ok? && centre !in ZedCentreHeights ==> r.value.qty == 0.0
    ensures r.Ok? && centre in ZedCentreHeights ==>
      var h := ZedHeadHeights[head];
      r.value.qty == TubeMetres(length, (h[0] + h[1]) as real + ZedCentreHeights[centre])
  {
    if head !in ZedHeadHeights then Fail(TypeError)
    else
      var h := ZedHeadHeights[head];
      if |h| < 2 then Fail(IndexError)
      else if centre !in ZedCentreHeights then Ok(Line(tube, 0.0))
      else Ok(Line(tube, TubeMetres(length, (h[0] + h[1]) as real + ZedCentreHeights[centre])))
  }

  /** Exactly the heads listed with a base-plate height give a ZED centre tube. */
  lemma ZedCentreTubeHeads(length: int, head: string, tube: string, centre: string)
    ensures ZedCentreTube(length, head, tube, centre).Ok? <==>
      head in ["Drive Head - 100mm Square", "Drive Head - 110mm Square", "Drive Head - 130mm Square",
               "Drive Head - 130mm Square DIGGA", "Drive Head - 150mm Square", "Drive Head - 150mm Square IMT",
               "Drive Head - 200mm Square Bauer", "Drive Head - 200mm Square MAIT", "Drive Head - 4\" Lo Drill"]
  {
  }

  /** The pilot offsets of `_get_center_tube`, keyed by pilot support. */
  const PilotOffsets: map<string, int> := map[
    "Pilot Support - Hex" := 75,
    "Pilot Support - 75mm Square" := 70,
    "Pilot Support - 100mm Square" := 100,
    "Pipe - OD101mm WT4.0mm" := 70
  ]

  /** The head height plus base plate `_get_center_tube` takes off the overall length. */
  const HeadAllowances: map<string, int> := map[
    "Drive Head - 65mm Round" := 100,
    "Drive Head - 65mm Square" := 100,
    "Drive Head - 75mm Square" := 150,
    "Drive Head - 100mm Square" := 175 + 25,
    "Drive Head - 110mm Square" := 240 + 25,
    "Drive Head - 130mm Square" := 260 + 32,
    "Drive Head - 130mm Square DIGGA" := 260 + 32,
    "Drive Head - 150mm Square" := 260 + 32,
    "Drive Head - 150mm Square IMT" := 260 + 32,
    "Drive Head - 200mm Square Bauer" := 457 + 32,
    "Drive Head - 200mm Square MAIT" := 345 + 32,
    "Drive Head - 4\" Lo Drill" := 332 + 25,
    "Drive Head - 3\" Hex" := 155,
    "Drive Head - 2\" Hex" := 135
  ]

  /** The centre tube line for the pilot-offset key `key`. */
  function CentreTubeFor(length: int, head: string, tube: string, key: string): (r: Line)
    ensures r.name == tube
    ensures head !in HeadAllowances ==> r.qty == 0.0
    ensures head in HeadAllowances ==>
      r.qty == TubeMetres(length, (HeadAllowances[head] + PilotOffset(key)) as real)
  {
    if head !in HeadAllowances then Line(tube, 0.0)
    else Line(tube, TubeMetres(length, (HeadAllowances[head] + PilotOffset(key)) as real))
  }

  /** `pilot_support_map.get(key, 0)` */
  function PilotOffset(key: string): (r: int)
    ensures r >= 0
  {
    if key in PilotOffsets then PilotOffsets[key] else 0
  }

  /**
   * `_get_center_tube` as written: the offset key is `pilot_supp[0]`, the
   * first character of the pilot support's name.
   */
  function CentreTube(length: int, head: string, tube: string, support: Option<string>): (r: Line)
    ensures r.name == tube
    ensures head !in HeadAllowances ==> r.qty == 0.0
    ensures head in HeadAllowances ==> r.qty == TubeMetres(length, HeadAllowances[head] as real)
  {
    var key := if support.Some? && support.value != "" then support.value[..1] else "";
    assert |key| <= 1;
    CentreTubeFor(length, head, tube, key)
  }

  /** As written, the pilot support never changes the centre tube: no offset key is one character long. */
  lemma CentreTubeIgnoresPilot(length: int, head: string, tube: string, support: Option<string>)
    ensures CentreTube(length, head, tube, support) == CentreTubeFor(length, head, tube, "")
  {
    var key := if support.Some? && support.value != "" then support.value[..1] else "";
    assert |key| <= 1;
  }

  /**
   * `_get_center_tube` as evidently intended: the offset is looked up by the
   * pilot support's name.
   */
  function CentreTubeIntended(length: int, head: string, tube: string, support: Option<string>): (r: Line)
    ensures r.name == tube
    ensures support.Some? && head in HeadAllowances ==>
      r.qty == TubeMetres(length, (HeadAllowances[head] + PilotOffset(support.value)) as real)
  {
    CentreTubeFor(length, head, tube, if support.Some? then support.value else "")
  }

  /** A pilot support can only shorten the intended centre tube. */
  lemma PilotShortensCentreTube(length: int, head: string, tube: string, support: string)
    ensures CentreTubeIntended(length, head, tube, Some(support)).qty <= CentreTubeIntended(length, head, tube, None).qty
  {
    if head in HeadAllowances {
      var a := HeadAllowances[head];
      var o := PilotOffset(support);
      Round2Monotone((length as real - (a + o) as real) / 1000.0, (length as real - a as real) / 1000.0);
    }
  }

  /** A 6000mm tube under a 75mm head with a hex pilot support: 5.85m as written, 5.78m as intended. */
  lemma CentreTubeHexPilotExample()
    ensures CentreTube(6000, "Drive Head - 75mm Square", "Hollow Bar - OD150mm ID120mm", Some("Pilot Support - Hex")).qty == 5.85
    ensures CentreTubeIntended(6000, "Drive Head - 75mm Square", "Hollow Bar - OD150mm ID120mm", Some("Pilot Support - Hex")).qty == 5.78
  {
    var tube := "Hollow Bar - OD150mm ID120mm";
    CentreTubeIgnoresPilot(6000, "Drive Head - 75mm Square", tube, Some("Pilot Support - Hex"));
    assert HeadAllowances["Drive Head - 75mm Square"] == 150;
    assert PilotOffset("Pilot Support - Hex") == 75;
    assert Round(5.85 * 100.0) == 585 by { RoundUnique(585.0, 585); }
    assert Round(5.775 * 100.0) == 578 by { RoundUnique(577.5, 578); }
  }

  const FlightBraceExcluded: seq<string> := [
    "Drive Head - 65mm Round", "Drive Head - 65mm Square", "Drive Head - 75mm Square",
    "Drive Head - 100mm Square", "Drive Head - 110mm Square", "Drive Head - 4\" Lo Drill",
    "Drive Head - 3\" Hex", "Drive Head - 2\" Hex", "Custom Head"
  ]

  /** The brace table of `_get_flight_brace_components` with brace quantity `qty`. */
  function BraceTable(qty: real): seq<(Span, Line)>
  {
    [(Span(0, 750), NoLine),
     (Span(750, 900), Line("750mm flight brace 180mm long", qty)),
     (Span(900, 1050), Line("900mm Flight brace 230mm long", qty)),
     (Span(1050, 1200), Line("1050mm flight brace 280mm long", qty)),
     (Span(1200, 1350), Line("1200mm Flight Brace 330mm long", qty)),
     (Span(1350, 5000), Line("1350mm+ flight brace 480mm long", qty))]
  }

  /**
   * `_get_flight_brace_components`: no table for the nine excluded heads;
   * otherwise the brace table, one brace when both carrier flight attributes
   * are set and two otherwise.
   */
  function FlightBraceComponents(head: string, carrierOd: string, carrierPitch: string): (r: seq<(Span, Line)>)
    ensures r == [] <==> head in FlightBraceExcluded
    ensures r != [] ==> r == BraceTable(if carrierOd != "" && carrierPitch != "" then 1.0 else 2.0)
  {
    if head in FlightBraceExcluded then []
    else BraceTable(if carrierOd != "" && carrierPitch != "" then 1.0 else 2.0)
  }

  /** The brace for a diameter, read directly off the buckets. */
  function BraceFor(diameter: int, qty: real): Line
  {
    if diameter < 750 || diameter >= 5000 then NoLine
    else if diameter < 900 then Line("750mm flight brace 180mm long", qty)
    else if diameter < 1050 then Line("900mm Flight brace 230mm long", qty)
    else if diameter < 1200 then Line("1050mm flight brace 280mm long", qty)
    else if diameter < 1350 then Line("1200mm Flight Brace 330mm long", qty)
    else Line("1350mm+ flight brace 480mm long", qty)
  }

  /**
   * The flight brace line a bored-pile builder takes: the resolved bucket of
   * the table, `(None, 0)` when there is no table or no bucket.
   */
  function FlightBrace(head: string, carrierOd: string, carrierPitch: string, diameter: int): Line
  {
    var t := FlightBraceComponents(head, carrierOd, carrierPitch);
    if t == [] then NoLine
    else match Select(t, diameter)
      case None => NoLine
      case Some(l) => l
  }

  /** The resolver picks the one bucket of the brace table that holds the diameter. */
  lemma SelectBrace(diameter: int, qty: real)
    ensures Select(BraceTable(qty), diameter) ==
      (if 0 <= diameter < 5000 then Some(BraceFor(diameter, qty)) else None)
  {
    var t := BraceTable(qty);
    assert forall j :: 0 <= j < |t| ==> t[j].0 != Wide;
    SelectNarrowest(t, diameter);
    if 0 <= diameter < 5000 {
      var i := if diameter < 750 then 0 else if diameter < 900 then 1 else if diameter < 1050 then 2
               else if diameter < 1200 then 3 else if diameter < 1350 then 4 else 5;
      assert forall j :: 0 <= j < |t| && Contains(t[j].0, diameter) ==> j == i;
      assert FirstNarrowest(t, diameter, 0, |t|, i);
    } else {
      assert NoneContain(t, diameter, 0, |t|);
    }
  }

  /**
   * The flight brace is the diameter's bucket for every head outside the
   * excluded list, one brace when both carrier attributes are set and two
   * otherwise; no brace below 750mm, from 5000mm or for excluded heads.
   */
  lemma FlightBraceBuckets(head: string, carrierOd: string, carrierPitch: string, diameter: int)
    ensures FlightBrace(head, carrierOd, carrierPitch, diameter) ==
      (if head in FlightBraceExcluded then NoLine
       else BraceFor(diameter, if carrierOd != "" && carrierPitch != "" then 1.0 else 2.0))
  {
    SelectBrace(diameter, if carrierOd != "" && carrierPitch != "" then 1.0 else 2.0);
  }
}
