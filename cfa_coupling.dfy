/**
 * The coupling end of a CFA auger (product_bom.py): the elbow, pipe
 * extension, spacer rings and plug chosen for a centre tube and inner tube
 * (`_get_cfa_coupling_ctube_at3`), and the drive-head couplings, base plate
 * and the cut lengths of the centre and inner tubes
 * (`_get_cfa_coupling_dhead_at2`, `_get_cfa_female_coupling`,
 * `_get_cfa_male_coupling`).
 *
 * The Length attribute is read with the pattern `([\d.]+)\s*m\b`; the model
 * takes the number it yields in metres (0 without a match) as a parameter.
 */
module CfaCoupling {
  import opened BomWrappers
  import opened PyNum
  import opened Bom
  import opened PyRegex
  import CfaTeeth

  // ---------------------------------------------------------------- centre and inner tube parts

  /** A configuration: the parts of one tube combination, keyed by slot, in the source's order. */
  type Config = seq<(string, Line)>

  const Elbow := "elbow"

  /** The order `_build_result` emits the slots in. */
  const ComponentOrder: seq<string> := [Elbow, "pipe_extension", "spacer_ring", "cfa_plug", "cfa_plug_holder"]

  const Elbow50 := Line("50NB Elbow - Xstrong Long Radius Bend", 1.0)
  const Elbow75 := Line("75NB elbow - Xstrong Long radius", 1.0)
  const Elbow105 := Line("105NB elbow - Xstrong Long radius", 1.0)
  const Elbow125 := Line("125NB elbow - Xstrong long radius", 1.0)
  const Plug105: Config := [("cfa_plug", Line("105mm CFA Plug", 1.0)), ("cfa_plug_holder", Line("105mm CFA Plug Holder", 1.0))]
  const Plug125: Config := [("cfa_plug", Line("125mm CFA Plug", 1.0)), ("cfa_plug_holder", Line("125mm CFA Plug Holder", 1.0))]

  /** `CFA_COUPLING_CONFIG`: keyed by the centre tube and the inner tube, `None` for a centre tube alone. */
  const CouplingConfigs: seq<((string, Option<string>), Config)> := [
    (("Hollow bar - OD80mm ID60mm", None), [(Elbow, Elbow50)]),
    (("Hollow Bar - OD80mm ID55mm", None), [(Elbow, Elbow50)]),
    (("Hollow Bar - OD100mm ID80mm", None), [(Elbow, Elbow75)]),
    (("Hollow Bar - OD110 ID70", None), [(Elbow, Elbow75)]),
    (("Hollow Bar - OD128mm WT 11.5mm", None), [(Elbow, Elbow105)] + Plug105),
    (("Hollow Bar - OD150mm ID120mm", None), [(Elbow, Elbow105)] + Plug105),
    (("Hollow Bar - OD152mm WT 26mm", None),
      [(Elbow, Elbow105), ("pipe_extension", Line("Hollow Bar - OD150mm ID120mm", 0.25))] + Plug105),
    (("Hollow Bar - OD152mm WT 33.5mm", None), [(Elbow, Elbow105)] + Plug105),
    (("Hollow Bar - OD168mm WT 21.5mm", None),
      [(Elbow, Elbow125), ("pipe_extension", Line("Hollow Bar - OD170mm ID140mm", 0.25))] + Plug125),
    (("Hollow Bar - OD168mm WT 29mm", None), [(Elbow, Elbow125)] + Plug125),
    (("Hollow Bar - OD170mm ID140mm", None), [(Elbow, Elbow125)] + Plug125),
    (("Hollow Bar - OD180 ID150", None), [(Elbow, Elbow125)]),
    (("Hollow bar - OD200 ID150", None), [(Elbow, Elbow125)]),
    (("Pipe - OD114mm WT8.56mm", Some("Pipe - OD44mm WT2.77mm")), [(Elbow, Elbow125)]),
    (("Hollow Bar - OD219mm WT 25mm", Some("Pipe - OD141mm WT6.6mm")),
      [(Elbow, Elbow125), ("spacer_ring", Line("219 CFA Spacer Ring (164mm OD 143mm ID 10mm)", 2.0))] + Plug125),
    (("Hollow bar - OD273mm WT14", Some("Pipe - OD141mm WT6.6mm")),
      [(Elbow, Elbow125), ("spacer_ring", Line("273 CFA Spacer Ring (218mm OD 143mm ID 10mm)", 2.0))] + Plug125),
    (("Hollow Bar - OD273mm WT 25mm", Some("Pipe - OD141mm WT6.6mm")),
      [(Elbow, Elbow125), ("spacer_ring", Line("273 CFA Spacer Ring (218mm OD 143mm ID 10mm)", 2.0))] + Plug125),
    (("Hollow Bar - OD273mm WT 32mm", Some("Pipe - OD141mm WT6.6mm")),
      [(Elbow, Elbow125), ("spacer_ring", Line("273 CFA heavy wall Spacer Ring (207mm OD 143mm ID 10mm)", 3.0))] + Plug125),
    (("Hollow Bar - OD323mm WT25mm", Some("Pipe - OD141mm WT6.6mm")),
      [(Elbow, Elbow125), ("spacer_ring", Line("323 CFA Spacer Ring (270mm OD 143mm ID 10mm)", 3.0))] + Plug125),
    (("Hollow Bar - OD323mm WT30mm", Some("Pipe - OD141mm WT6.6mm")),
      [(Elbow, Elbow125), ("spacer_ring", Line("323 CFA Spacer Ring (270mm OD 143mm ID 10mm)", 3.0))] + Plug125)
  ]

  /** `INNER_TUBE_FALLBACK`: the parts for an inner tube whatever the centre tube. */
  const InnerTubeFallback: seq<(string, Config)> := [
    ("Pipe - OD88.9mm WT5.4mm", [(Elbow, Elbow75)]),
    ("Pipe - OD114mm WT6.0mm", [(Elbow, Elbow105)] + Plug105),
    ("Hollow Bar - OD168mm WT 21.5mm", [(Elbow, Elbow125)] + Plug125)
  ]

  /** Every configuration of a table starts with its elbow. */
  predicate ElbowFirst<K>(t: seq<(K, Config)>)
  {
    forall i :: 0 <= i < |t| ==> t[i].1 != [] && t[i].1[0].0 == Elbow
  }

  /** Both tables give every configuration an elbow. */
  lemma TablesHaveElbows()
    ensures ElbowFirst(CouplingConfigs) && ElbowFirst(InnerTubeFallback)
  {
  }

  /** The part in one slot of a configuration, as a list of zero or one lines. */
  function Slot(config: Config, slot: string): (r: seq<Line>)
    ensures r == [] <==> !HasKey(config, slot)
    ensures r != [] ==> r == [Get(config, slot).value]
  {
    match Get(config, slot)
    case None => []
    case Some(l) => [l]
  }

  /** The parts of the configuration's slots among `order`, in the order of `order`. */
  function Built(config: Config, order: seq<string>): (r: seq<Line>)
    ensures |r| <= |order|
  {
    if order == [] then [] else Built(config, order[..|order| - 1]) + Slot(config, order[|order| - 1])
  }

  /** When the first slot of `order` is filled, its part comes first. */
  lemma {:induction false} BuiltHead(config: Config, order: seq<string>)
    requires order != [] && HasKey(config, order[0])
    ensures Built(config, order) != [] && Built(config, order)[0] == Get(config, order[0]).value
  {
    if |order| > 1 {
      var init := order[..|order| - 1];
      assert init[0] == order[0];
      BuiltHead(config, init);
    } else {
      assert order[..0] == [];
    }
  }

  /** `_build_result`: walks the slots in order, appending the part of every filled slot. */
  method BuildResult(config: Config) returns (result: seq<Line>)
    ensures result == Built(config, ComponentOrder)
    ensures HasKey(config, Elbow) ==> result != [] && result[0] == Get(config, Elbow).value
  {
    result := [];
    for i := 0 to |ComponentOrder|
      invariant result == Built(config, ComponentOrder[..i])
    {
      assert ComponentOrder[..i + 1][..i] == ComponentOrder[..i];
      var slot := ComponentOrder[i];
      match Get(config, slot) {
        case Some(l) => result := result + [l];
        case None =>
      }
    }
    assert ComponentOrder[..|ComponentOrder|] == ComponentOrder;
    if HasKey(config, Elbow) {
      BuiltHead(config, ComponentOrder);
    }
  }

  /** The inner tube as the lookup uses it: "-" and "" stand for no inner tube, any other name is stripped. */
  function NormalisedInner(inner: string): (r: Option<string>)
    ensures r.None? <==> inner == "-" || inner == ""
    ensures r.Some? ==> r.value == Strip(inner)
  {
    if inner == "-" || inner == "" then None else Some(Strip(inner))
  }

  /**
   * The configuration `_get_cfa_coupling_ctube_at3` uses: the exact pair
   * first, then the centre tube alone, then the inner-tube fallback, and
   * none when all three miss.
   */
  function Selected(centre: string, inner: string): (r: Option<Config>)
    ensures var exact := (centre, NormalisedInner(inner));
      HasKey(CouplingConfigs, exact) ==> r == Get(CouplingConfigs, exact)
    ensures var exact := (centre, NormalisedInner(inner));
      !HasKey(CouplingConfigs, exact) && HasKey(CouplingConfigs, (centre, None)) ==>
        r == Get(CouplingConfigs, (centre, None))
    ensures var n := NormalisedInner(inner);
      !HasKey(CouplingConfigs, (centre, n)) && !HasKey(CouplingConfigs, (centre, None)) ==>
        r == (if n.Some? then Get(InnerTubeFallback, n.value) else None)
    ensures r.Some? ==> r.value != [] && r.value[0].0 == Elbow
  {
    TablesHaveElbows();
    var n := NormalisedInner(inner);
    match Get(CouplingConfigs, (centre, n))
    case Some(c) => Some(c)
    case None =>
      match Get(CouplingConfigs, (centre, None))
      case Some(c) => Some(c)
      case None => if n.Some? then Get(InnerTubeFallback, n.value) else None
  }

  /**
   * `_get_cfa_coupling_ctube_at3`: the parts of the selected configuration
   * in slot order, `[]` when none is selected. A non-empty list starts with
   * the configuration's elbow.
   */
  function CentreTubeItems(centre: string, inner: string): (r: seq<Line>)
    ensures Selected(centre, inner).None? ==> r == []
    ensures Selected(centre, inner).Some? ==> r == Built(Selected(centre, inner).value, ComponentOrder)
    ensures r != [] <==> Selected(centre, inner).Some?
    ensures r != [] ==> r[0] == Selected(centre, inner).value[0].1
  {
    match Selected(centre, inner)
    case None => []
    case Some(c) =>
      assert HasKey(c, Elbow) by { assert c[0].0 == Elbow; }
      BuiltHead(c, ComponentOrder);
      assert Get(c, Elbow).value == c[0].1;
      Built(c, ComponentOrder)
  }

  /** The same parts, collected by `_build_result`'s loop. */
  method CentreTubeParts(centre: string, inner: string) returns (items: seq<Line>)
    ensures items == CentreTubeItems(centre, inner)
  {
    match Selected(centre, inner) {
      case None => items := [];
      case Some(c) => items := BuildResult(c);
    }
  }

  /** The elbow the builders pass on: the first part's name, "" for no parts. */
  function ElbowName(items: seq<Line>): (r: string)
    ensures items == [] ==> r == ""
    ensures items != [] ==> r == items[0].name
  {
    if items == [] then "" else items[0].name
  }

  // ---------------------------------------------------------------- drive-head couplings

  /** A coupling part: its name, its height and the depth of its slot, both in mm. */
  datatype Coupling = Coupling(name: string, height: real, slot: real)

  const FemaleCouplings: seq<(string, Coupling)> := [
    ("3.5\" API Coupling", Coupling("3.5\" API Female coupling", 142.0, 0.0)),
    ("2\" Hex Coupling", Coupling("2\" Hex Coupling - Female", 155.0, 0.0)),
    ("3\" Hex Coupling", Coupling("3\" Hex Coupling - Female", 155.0, 0.0)),
    ("4\" Hex Coupling", Coupling("4\" Hex Coupling - Female", 155.0, 0.0)),
    ("35TM Coupling", Coupling("35TM Coupling - Female", 289.0, 10.0)),
    ("53TM Coupling", Coupling("53TM Coupling - Female", 250.0, 10.0)),
    ("Carrendeena 5\" Coupling", Coupling("Carrendeena 5\" Coupling - Female", 230.0, 0.0)),
    ("Casagrande 5\" Coupling", Coupling("Casagrande 5\" Coupling - Female", 230.0, 10.0)),
    ("HD4 Coupling", Coupling("HD4 Coupling - Female", 220.0, 0.0)),
    ("HD5 Coupling", Coupling("HD5 Coupling - Female", 220.0, 0.0)),
    ("25XHD5 Coupling", Coupling("25XHD5 Coupling - Female", 365.0, 10.0)),
    ("XHD5 Coupling", Coupling("XHD5 Coupling - Female", 242.0, 10.0)),
    ("XHD5 Mini Coupling", Coupling("XHD5 Mini Coupling - Female", 242.0, 10.0)),
    ("Llamada Coupling", Coupling("Llamada Coupling - Female", 279.0, 0.0)),
    ("MAIT175 Coupling", Coupling("MAIT175 Coupling - Female", 240.0, 10.0)),
    ("MAIT200 Coupling", Coupling("MAIT200 Coupling - Female", 304.0, 10.0)),
    ("TB2/TB80/SW80 Coupling", Coupling("TB80/SW80 Coupling - Female", 148.0, 0.0)),
    ("SW110 Coupling (TB3)", Coupling("SW110 Female Coupling", 170.0, 0.0)),
    ("SW150 Bauer Coupling", Coupling("SW150 Bauer Female Octagon Coupling", 258.0, 0.0)),
    ("SW150 EMDE Coupling", Coupling("SW150 Bauer Female Octagon Coupling", 225.0, 0.0)),
    ("SW175 Coupling", Coupling("SW150 EMDE Female", 400.0, 0.0)),
    ("SW190 Coupling", Coupling("SW175 Coupling - Female", 400.0, 10.0)),
    ("SW200 Coupling", Coupling("SW200 Female Coupling", 446.0, 10.0)),
    ("SW250 Coupling", Coupling("SW250 Female Coupling", 585.0, 10.0)),
    ("TB46 Coupling", Coupling("TB46 Coupling - Female", 250.0, 10.0)),
    ("Drive Head - 75mm Square", Coupling("Drive Head - 75mm Square", 150.0, 0.0)),
    ("Drive Head - 100mm Square", Coupling("Drive Head - 100mm Square", 175.0, 0.0)),
    ("Drive Head - 110mm Square", Coupling("Drive Head - 110mm Square", 240.0, 0.0)),
    ("Drive Head - 130mm Square", Coupling("Drive Head - 130mm Square", 260.0, 0.0)),
    ("Drive Head - 130mm Square DIGGA", Coupling("Drive Head - 130mm Square DIGGA", 260.0, 0.0))
  ]

  const MaleCouplings: seq<(string, Coupling)> := [
    ("3.5\" API Coupling", Coupling("3.5\" API Male coupling", 50.0, 0.0)),
    ("2\" Hex Coupling", Coupling("2\" Hex Coupling - Male Male Joiner", 155.0, 0.0)),
    ("3\" Hex Coupling", Coupling("3\" Hex Coupling - Male Male Joiner", 155.0, 0.0)),
    ("4\" Hex Coupling", Coupling("4\" Hex Coupling - Male Male Joiner", 155.0, 0.0)),
    ("35TM Coupling", Coupling("35TM Coupling - Male", 85.0, 10.0)),
    ("53TM Coupling", Coupling("53TM Coupling - Male", 85.0, 10.0)),
    ("Carrendeena 5\" Coupling", Coupling("Carrendeena 5\" Coupling - Male", 55.0, 0.0)),
    ("Casagrande 5\" Coupling", Coupling("Casagrande 5\" Coupling - Male", 60.0, 10.0)),
    ("HD4 Coupling", Coupling("HD4 Coupling - Male", 85.0, 0.0)),
    ("HD5 Coupling", Coupling("HD5 Coupling - Male", 80.0, 0.0)),
    ("25XHD5 Coupling", Coupling("25XHD5 Coupling - Male", 70.0, 10.0)),
    ("XHD5 Coupling", Coupling("XHD5 Coupling - Male", 58.5, 10.0)),
    ("XHD5 Mini Coupling", Coupling("XHD5 Mini Coupling - Male", 58.0, 10.0)),
    ("Llamada Coupling", Coupling("Llamada Coupling - Male", 41.0, 0.0)),
    ("MAIT175 Coupling", Coupling("MAIT175 Coupling - Male", 65.0, 10.0)),
    ("MAIT200 Coupling", Coupling("MAIT200 Coupling - Male", 55.0, 10.0)),
    ("SW80 Coupling", Coupling("TB80/SW80 Coupling - Male", 20.0, 0.0)),
    ("SW110 Coupling", Coupling("SW110 Male Coupling", 35.0, 0.0)),
    ("SW150 EMDE Coupling", Coupling("SW150 Bauer Male Coupling", 50.0, 0.0)),
    ("SW150 Bauer Coupling", Coupling("SW150 EMDE Male", 100.0, 0.0)),
    ("SW175 Coupling", Coupling("SW175 Coupling - male", 85.0, 10.0)),
    ("SW190 Coupling", Coupling("SW190 Coupling - Male", 85.0, 10.0)),
    ("SW200 Coupling", Coupling("SW200 Male Coupling", 145.0, 10.0)),
    ("SW250 Coupling", Coupling("SW250 Male Coupling", 100.0, 10.0)),
    ("TB46 Coupling", Coupling("TB46 Coupling - Male", 75.0, 10.0)),
    ("Drive Head - 75mm Square", Coupling("75mm Square Adapter Stubb", 40.0, 0.0)),
    ("Drive Head - 100mm Square", Coupling("100mm square Stubb", 50.0, 0.0)),
    ("Drive Head - 110mm Square", Coupling("110mm Drive Stubb", 40.0, 0.0)),
    ("Drive Head - 130mm Square", Coupling("130mm Stubb", 40.0, 0.0)),
    ("Drive Head - 130mm Square DIGGA", Coupling("130mm Stubb - Digga", 40.0, 0.0))
  ]

  /** `_get_cfa_female_coupling`: the female coupling of a drive head, none for an unlisted head. */
  function FemaleCoupling(driveHead: string): (r: Option<Coupling>)
    ensures r.None? <==> !HasKey(FemaleCouplings, driveHead)
    ensures r.Some? ==> r.value.name != ""
  {
    assert forall i :: 0 <= i < |FemaleCouplings| ==> FemaleCouplings[i].1.name != "";
    Get(FemaleCouplings, driveHead)
  }

  /** `_get_cfa_male_coupling`: the male coupling or stub of a drive head, none for an unlisted head. */
  function MaleCoupling(driveHead: string): (r: Option<Coupling>)
    ensures r.None? <==> !HasKey(MaleCouplings, driveHead)
  {
    Get(MaleCouplings, driveHead)
  }

  // ---------------------------------------------------------------- heights and tube lengths

  /** `_get_base_plate`: the base plate of the three square drive heads, "" for any other head. */
  function BasePlate(driveHead: string): (r: string)
    ensures r == "Base Plate - 100mm Head" <==> driveHead == "Drive Head - 100mm Square"
    ensures r == "Base Plate - 110mm Head" <==> driveHead == "Drive Head - 110mm Square"
    ensures r == "Base Plate - 130mm Head" <==>
      driveHead == "Drive Head - 130mm Square DIGGA" || driveHead == "Drive Head - 130mm Square"
    ensures r == "" <==> driveHead !in BasePlateHeights.Keys
  {
    if driveHead == "Drive Head - 100mm Square" then "Base Plate - 100mm Head"
    else if driveHead == "Drive Head - 110mm Square" then "Base Plate - 110mm Head"
    else if driveHead in ["Drive Head - 130mm Square DIGGA", "Drive Head - 130mm Square"] then "Base Plate - 130mm Head"
    else ""
  }

  const PilotSupportHeights: map<string, real> := map[
    "Pilot Support - Hex" := 75.0,
    "Pilot Support - 75mm Square" := 70.0,
    "Pilot Support - 100mm Square" := 100.0,
    "Pipe - OD101mm WT4.0mm" := 70.0
  ]

  const ZedCentreHeights: map<string, real> := map[
    "ZED Centre 150mm" := 133.5,
    "ZED Centre 168mm" := 147.5,
    "ZED Centre 219mm" := 163.0,
    "ZED Centre 273mm" := 163.0
  ]

  const ElbowHeights: map<string, real> := map[
    "125NB elbow - Xstrong long radius" := 260.0,
    "105NB elbow - Xstrong Long radius" := 209.0,
    "90NB elbow - Xstrong Long radius" := 184.0,
    "75NB elbow - Xxstrong Long radius" := 158.0,
    "50NB Elbow - Xxstrong Long Radius Bend" := 106.0,
    "40NB Elbow" := 81.0
  ]

  const BasePlateHeights: map<string, real> := map[
    "Drive Head - 100mm Square" := 25.0,
    "Drive Head - 110mm Square" := 25.0,
    "Drive Head - 130mm Square" := 32.0,
    "Drive Head - 130mm Square DIGGA" := 32.0
  ]

  /** `m.get(k, 0) / 1000.0`: a height in mm as metres, 0 for an unlisted name. */
  function Metres(heights: map<string, real>, k: string): (r: real)
    ensures k !in heights ==> r == 0.0
    ensures k in heights ==> r == heights[k] / 1000.0
  {
    if k in heights then heights[k] / 1000.0 else 0.0
  }

  /** The pilot support whose height counts: Hex for the 19mm and 22mm pilots, 75mm Square for 25mm, 100mm Square otherwise. */
  function PilotSupportFor(pilot: string): (r: string)
    ensures r == "Pilot Support - Hex" <==> pilot == "19mm Teeth Pilot" || pilot == "22mm Teeth Pilot"
    ensures r == "Pilot Support - 75mm Square" <==> pilot == "25mm Teeth Pilot"
    ensures r == "Pilot Support - 100mm Square" <==>
      pilot !in ["19mm Teeth Pilot", "22mm Teeth Pilot", "25mm Teeth Pilot"]
  {
    if pilot in ["19mm Teeth Pilot", "22mm Teeth Pilot"] then "Pilot Support - Hex"
    else if pilot == "25mm Teeth Pilot" then "Pilot Support - 75mm Square"
    else "Pilot Support - 100mm Square"
  }

  /** The heights in metres that the tube lengths subtract. */
  datatype Heights = Heights(female: real, femaleSlot: real, male: real, maleSlot: real,
                             pilotSupport: real, zedCentre: real, elbow: real, basePlate: real)

  /** `c[1] / 1000.0 if c else 0`: a coupling's height in metres, 0 without a coupling. */
  function CouplingHeight(c: Option<Coupling>): (r: real)
    ensures c.None? ==> r == 0.0
    ensures c.Some? ==> r == c.value.height / 1000.0
  {
    if c.Some? then c.value.height / 1000.0 else 0.0
  }

  /** `c[2] / 1000.0 if c else 0`: a coupling's slot depth in metres, 0 without a coupling. */
  function CouplingSlot(c: Option<Coupling>): (r: real)
    ensures c.None? ==> r == 0.0
    ensures c.Some? ==> r == c.value.slot / 1000.0
  {
    if c.Some? then c.value.slot / 1000.0 else 0.0
  }

  /** The heights of the drive head's couplings (0 when unlisted), pilot support, ZED centre, elbow and base plate. */
  function HeightsFor(driveHead: string, pilot: string, zedCentre: string, elbow: string): (h: Heights)
    ensures h.female == CouplingHeight(FemaleCoupling(driveHead))
    ensures h.femaleSlot == CouplingSlot(FemaleCoupling(driveHead))
    ensures h.male == CouplingHeight(MaleCoupling(driveHead))
    ensures h.maleSlot == CouplingSlot(MaleCoupling(driveHead))
    ensures h.pilotSupport == Metres(PilotSupportHeights, PilotSupportFor(pilot))
    ensures h.zedCentre == Metres(ZedCentreHeights, zedCentre)
    ensures h.elbow == Metres(ElbowHeights, elbow)
    ensures h.basePlate == Metres(BasePlateHeights, driveHead)
  {
    var f := FemaleCoupling(driveHead);
    var m := MaleCoupling(driveHead);
    Heights(CouplingHeight(f), CouplingSlot(f), CouplingHeight(m), CouplingSlot(m),
            Metres(PilotSupportHeights, PilotSupportFor(pilot)), Metres(ZedCentreHeights, zedCentre),
            Metres(ElbowHeights, elbow), Metres(BasePlateHeights, driveHead))
  }

  /** Lead types whose tubes stand on a pilot support rather than a ZED centre. */
  const PilotLeads: seq<string> := ["Dual Rock", "Taper Rock", "Clay/Shale", "Single Cut"]

  /** The two centre tubes that carry a fixed 0.25m pipe extension. */
  const WithPipeExtension: seq<string> := ["Hollow Bar - OD152mm WT 26mm", "Hollow Bar - OD168mm WT 21.5mm"]

  function PipeExtension(centreTube: string): real
  {
    if centreTube in WithPipeExtension then 0.25 else 0.0
  }

  /** The height under the tubes of a lead: the pilot support, or the ZED centre for any other lead type. */
  function LeadFoot(leadType: string, h: Heights): real
  {
    if leadType in PilotLeads then h.pilotSupport else h.zedCentre
  }

  /**
   * The signed centre-tube length: the overall length less the female
   * coupling, then on a Lead the foot, the base plate and the pipe
   * extension, on an Intermediate the male coupling and the base plate, on
   * any other type the male coupling.
   */
  function CentreTubeRaw(cfaType: string, leadType: string, centreTube: string, lengthM: real, h: Heights): real
  {
    if cfaType == "Lead" then lengthM - h.female - LeadFoot(leadType, h) - h.basePlate - PipeExtension(centreTube)
    else if cfaType == "Intermediate" then lengthM - h.female - h.male - h.basePlate
    else lengthM - h.female - h.male
  }

  /**
   * The signed inner-tube length: as the centre tube but without the pipe
   * extension, less the elbow on a Lead, plus the slot of each coupling it
   * reaches into.
   */
  function InnerTubeRaw(cfaType: string, leadType: string, lengthM: real, h: Heights): real
  {
    if cfaType == "Lead" then lengthM - h.female - LeadFoot(leadType, h) - h.elbow - h.basePlate + h.femaleSlot
    else if cfaType == "Intermediate" then lengthM - h.female - h.male - h.basePlate + h.femaleSlot + h.maleSlot
    else lengthM - h.female - h.male + h.femaleSlot + h.maleSlot
  }

  /** `_get_center_tube_qty`: the centre-tube length in metres, never negative, in whole hundredths. */
  function CentreTubeLength(cfaType: string, leadType: string, centreTube: string, lengthM: real, h: Heights): (r: real)
    ensures r >= 0.0 && IsHundredths(r)
    ensures -0.005 <= r - Abs(CentreTubeRaw(cfaType, leadType, centreTube, lengthM, h)) <= 0.005
  {
    var r := Round2(Abs(CentreTubeRaw(cfaType, leadType, centreTube, lengthM, h)));
    Round2Monotone(0.0, Abs(CentreTubeRaw(cfaType, leadType, centreTube, lengthM, h)));
    assert Round(0.0 * 100.0) == 0 by { RoundUnique(0.0, 0); }
    r
  }

  /** `_get_inner_tube_qty`: the inner-tube length in metres, never negative, in whole hundredths. */
  function InnerTubeLength(cfaType: string, leadType: string, lengthM: real, h: Heights): (r: real)
    ensures r >= 0.0 && IsHundredths(r)
    ensures -0.005 <= r - Abs(InnerTubeRaw(cfaType, leadType, lengthM, h)) <= 0.005
  {
    var r := Round2(Abs(InnerTubeRaw(cfaType, leadType, lengthM, h)));
    Round2Monotone(0.0, Abs(InnerTubeRaw(cfaType, leadType, lengthM, h)));
    assert Round(0.0 * 100.0) == 0 by { RoundUnique(0.0, 0); }
    r
  }

  /**
   * The inner tube differs from the centre tube by the coupling slots it
   * reaches into, and on a Lead also by the elbow it stops at and the pipe
   * extension it does not lose.
   */
  lemma InnerAgainstCentre(cfaType: string, leadType: string, centreTube: string, lengthM: real, h: Heights)
    ensures cfaType == "Lead" ==>
      InnerTubeRaw(cfaType, leadType, lengthM, h)
      == CentreTubeRaw(cfaType, leadType, centreTube, lengthM, h) + PipeExtension(centreTube) - h.elbow + h.femaleSlot
    ensures cfaType != "Lead" ==>
      InnerTubeRaw(cfaType, leadType, lengthM, h)
      == CentreTubeRaw(cfaType, leadType, centreTube, lengthM, h) + h.femaleSlot + h.maleSlot
  {
  }

  /** Where the centre tube fits, a longer auger never gets a shorter centre tube. */
  lemma CentreTubeGrows(cfaType: string, leadType: string, centreTube: string, short: real, long: real, h: Heights)
    requires short <= long
    requires CentreTubeRaw(cfaType, leadType, centreTube, short, h) >= 0.0
    ensures CentreTubeLength(cfaType, leadType, centreTube, short, h)
         <= CentreTubeLength(cfaType, leadType, centreTube, long, h)
  {
    var a := CentreTubeRaw(cfaType, leadType, centreTube, short, h);
    var b := CentreTubeRaw(cfaType, leadType, centreTube, long, h);
    assert b - a == long - short;
    Round2Monotone(Abs(a), Abs(b));
  }

  /** `(c[0], 1) if c else ('', 1)`: a coupling as a line of one, named "" without a coupling. */
  function CouplingLine(c: Option<Coupling>): (r: Line)
    ensures r.qty == 1.0
    ensures r.name == (if c.Some? then c.value.name else "")
  {
    Line(if c.Some? then c.value.name else "", 1.0)
  }

  /**
   * The couplings of `_get_cfa_coupling_dhead_at2`: the female coupling
   * (named "" for an unlisted head), the male coupling only on an
   * Intermediate or Extension, and the base plate.
   */
  function CouplingParts(cfaType: string, driveHead: string): (r: seq<Line>)
    ensures |r| == 3
    ensures r[0] == CouplingLine(FemaleCoupling(driveHead))
    ensures cfaType !in ["Intermediate", "Extension"] ==> r[1] == NoLine
    ensures cfaType in ["Intermediate", "Extension"] ==>
      r[1] == CouplingLine(MaleCoupling(driveHead))
    ensures r[2] == Line(BasePlate(driveHead), 1.0)
  {
    var male := if cfaType in ["Intermediate", "Extension"] then CouplingLine(MaleCoupling(driveHead)) else NoLine;
    [CouplingLine(FemaleCoupling(driveHead)), male, Line(BasePlate(driveHead), 1.0)]
  }

  /** The tubes of `_get_cfa_coupling_dhead_at2`: the centre tube and the inner tube with their lengths. */
  function TubeParts(cfaType: string, leadType: string, driveHead: string, centreTube: string, innerTube: string,
                     pilot: string, zedCentre: string, elbow: string, lengthM: real): (r: seq<Line>)
    ensures |r| == 2 && r[0].name == centreTube && r[1].name == innerTube
    ensures r[0].qty >= 0.0 && IsHundredths(r[0].qty) && r[1].qty >= 0.0 && IsHundredths(r[1].qty)
    ensures var h := HeightsFor(driveHead, pilot, zedCentre, elbow);
      r[0].qty == CentreTubeLength(cfaType, leadType, centreTube, lengthM, h)
      && r[1].qty == InnerTubeLength(cfaType, leadType, lengthM, h)
  {
    var h := HeightsFor(driveHead, pilot, zedCentre, elbow);
    [Line(centreTube, CentreTubeLength(cfaType, leadType, centreTube, lengthM, h)),
     Line(innerTube, InnerTubeLength(cfaType, leadType, lengthM, h))]
  }

  /**
   * `_get_cfa_coupling_dhead_at2`: the couplings and base plate, then the
   * two tubes, whose lengths are never negative and are in whole hundredths
   * of a metre.
   */
  function DriveHeadParts(cfaType: string, leadType: string, driveHead: string, centreTube: string, innerTube: string,
                          pilot: string, zedCentre: string, elbow: string, lengthM: real): (r: seq<Line>)
    ensures |r| == 5
    ensures r[0] == CouplingLine(FemaleCoupling(driveHead))
    ensures r[..3] == CouplingParts(cfaType, driveHead)
    ensures r[3..] == TubeParts(cfaType, leadType, driveHead, centreTube, innerTube, pilot, zedCentre, elbow, lengthM)
    ensures r[3].name == centreTube && r[4].name == innerTube
    ensures r[3].qty >= 0.0 && IsHundredths(r[3].qty) && r[4].qty >= 0.0 && IsHundredths(r[4].qty)
  {
    CouplingParts(cfaType, driveHead) + TubeParts(cfaType, leadType, driveHead, centreTube, innerTube, pilot, zedCentre, elbow, lengthM)
  }

  /**
   * The elbow heights are keyed "Xxstrong" where the coupling tables name
   * the 50NB and 75NB elbows "Xstrong", so those two elbows count as 0mm
   * high and the inner tube of a lead on them is cut too long.
   */
  lemma ElbowHeightMissed()
    ensures Metres(ElbowHeights, Elbow75.name) == 0.0 && Metres(ElbowHeights, Elbow50.name) == 0.0
    ensures Metres(ElbowHeights, Elbow105.name) == 0.209 && Metres(ElbowHeights, Elbow125.name) == 0.26
  {
    assert ElbowHeights.Keys == {"125NB elbow - Xstrong long radius", "105NB elbow - Xstrong Long radius",
      "90NB elbow - Xstrong Long radius", "75NB elbow - Xxstrong Long radius",
      "50NB Elbow - Xxstrong Long Radius Bend", "40NB Elbow"};
  }

  /** The elbow heights keyed by the names the coupling tables use. */
  const ElbowHeightsIntended: map<string, real> := map[
    Elbow125.name := 260.0,
    Elbow105.name := 209.0,
    "90NB elbow - Xstrong Long radius" := 184.0,
    Elbow75.name := 158.0,
    Elbow50.name := 106.0,
    "40NB Elbow" := 81.0
  ]

  /** Every elbow a coupling configuration yields has an intended height. */
  lemma EveryElbowMeasured()
    ensures forall i :: 0 <= i < |CouplingConfigs| ==> CouplingConfigs[i].1[0].1.name in ElbowHeightsIntended
    ensures forall i :: 0 <= i < |InnerTubeFallback| ==> InnerTubeFallback[i].1[0].1.name in ElbowHeightsIntended
  {
  }

  /**
   * The pilot check names a "19mm Teeth Pilot" where the teeth tables name
   * the "19.4mm Teeth Pilot", so that pilot's tubes stand on the 100mm
   * square support's height although its parts list the hex support.
   */
  lemma PilotSupportMissed()
    ensures PilotSupportFor("19.4mm Teeth Pilot") == "Pilot Support - 100mm Square"
    ensures CfaTeeth.DualTaperPilots[0].0 == "19.4mm Teeth Pilot"
    ensures CfaTeeth.DualTaperPilots[0].1[1].name == "Pilot Support - Hex"
  {
  }

  /** The pilot support as intended: the hex support for the 19.4mm and 22mm pilots. */
  function PilotSupportIntended(pilot: string): (r: string)
    ensures r == "Pilot Support - Hex" <==> pilot == "19.4mm Teeth Pilot" || pilot == "22mm Teeth Pilot"
    ensures r == "Pilot Support - 75mm Square" <==> pilot == "25mm Teeth Pilot"
    ensures r == "Pilot Support - 100mm Square" <==>
      pilot !in ["19.4mm Teeth Pilot", "22mm Teeth Pilot", "25mm Teeth Pilot"]
  {
    if pilot in ["19.4mm Teeth Pilot", "22mm Teeth Pilot"] then "Pilot Support - Hex"
    else if pilot == "25mm Teeth Pilot" then "Pilot Support - 75mm Square"
    else "Pilot Support - 100mm Square"
  }

  /** The intended support is the one each Dual/Taper pilot's parts list. */
  lemma PilotSupportIntendedAgrees()
    ensures forall i :: 0 <= i < |CfaTeeth.DualTaperPilots| ==>
      PilotSupportIntended(CfaTeeth.DualTaperPilots[i].0) == CfaTeeth.DualTaperPilots[i].1[1].name
  {
  }
}
