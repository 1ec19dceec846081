/**
 * The bored-pile helpers in which bp_bom_automation.py departs from
 * bom_automation_v1.py: the ID field of a non-stocked flight name comes from
 * a fixed table of centre tubes, an excluded drive head gets a `(None, 0)`
 * pair instead of an empty brace table, and the blade support is a whole
 * OD101 pipe. The carrier quantity with its "Dual Carrier" rule is the
 * `BoredPileV1` one; the teeth functions are the `AugerTeethV2` ones.
 */
module BoredPileBp {
  import opened BomWrappers
  import opened Bom
  import opened PyText
  import opened PyRegex
  import opened RangeTable
  import AugerParts
  import AugerFlights
  import AugerTeeth
  import P = AugerPartsV2
  import T = AugerTeethV2
  import V1 = BoredPileV1

  /**
   * `_get_center_tube_id`: the number of the ID field written for each
   * centre tube (the table holds "ID50" where this holds 50).
   */
  const CentreTubeIds: seq<(string, nat)> := [
    ("4340 Black bar - 50mm Diameter", 50),
    ("4140 Bright bar - 50mm", 50),
    ("4140 Black bar - 70mm", 70),
    ("4340 Black bar - 70mm", 70),
    ("4340 Black bar - 90mm", 90),
    ("4140 Bright bar - 90mm", 90),
    ("Hollow bar - OD70 ID40", 70),
    ("Hollow bar - OD75 ID50", 75),
    ("Hollow bar - OD75 ID55", 75),
    ("Hollow bar - OD85 ID70", 85),
    ("Hollow bar - OD90 ID60", 90),
    ("Hollow Bar - OD90 ID65", 90),
    ("hollow bar - OD90 ID70", 90),
    ("Hollow Bar - OD100 ID65mm", 100),
    ("Hollow Bar - OD100mm ID55mm", 100),
    ("Hollow Bar - OD100mm ID75mm", 100),
    ("Hollow Bar - OD100mm ID80mm", 100),
    ("Hollow Bar - OD110 ID70", 110),
    ("Hollow Bar - OD128mm WT 11.5mm", 128),
    ("Hollow Bar - OD150mm ID120mm", 150),
    ("Hollow Bar - OD152mm WT 26mm", 152),
    ("Hollow Bar - OD152mm WT 33.5mm", 152),
    ("Hollow Bar - OD168mm WT 21.5mm", 168),
    ("Hollow Bar - OD168mm WT 29mm", 168),
    ("Hollow Bar - OD170mm ID140mm", 170),
    ("Hollow Bar - OD180 ID150", 180),
    ("Hollow Bar - OD200 ID150", 200),
    ("Pipe - OD219mm WT 25mm", 219),
    ("Pipe - OD273mm WT14", 273),
    ("Pipe - OD273mm WT 25mm", 273),
    ("Pipe - OD273mm WT 32mm", 273),
    ("Pipe - OD323mm WT25mm", 323),
    ("Pipe - OD323mm WT30mm", 323),
    ("Pipe - OD356 ID306", 356),
    ("Pipe - OD457mm T35mm", 457),
    ("Pipe - OD457mm T25mm", 457),
    ("Pipe - OD101mm WT4.0mm", 101),
    ("Pipe - OD114mm WT6.0mm", 114),
    ("Pipe - OD114mm WT8.56mm", 114),
    ("Pipe - OD168mm WT11mm", 168),
    ("Pipe - OD219mm WT12.7mm", 219),
    ("Pipe - OD273mm WT12.7mm", 273),
    ("Pipe - OD323mm WT12.7mm", 323),
    ("Pipe - OD355mm WT12.7mm", 355),
    ("Pipe - OD457mm WT15.9mm", 457)
  ]

  /** The ID field a table gives a centre tube: "ID" and the tube's number, "" for an unlisted tube. */
  function IdField(ids: seq<(string, nat)>, tube: string): (r: string)
    ensures r == "" <==> !HasKey(ids, tube)
    ensures r != "" ==> exists n :: (tube, n) in ids && r == "ID" + NatText(n)
    ensures 'P' !in r && 'T' !in r
  {
    match Get(ids, tube)
    case None => ""
    case Some(n) =>
      var r := "ID" + NatText(n);
      assert forall i :: 2 <= i < |r| ==> r[i] == NatText(n)[i - 2];
      r
  }

  /** The ID field of a centre tube under `_get_center_tube_id`. */
  function CentreTubeId(tube: string): (r: string)
    ensures r == "" <==> !HasKey(CentreTubeIds, tube)
    ensures r != "" ==> |r| > 2 && r[..2] == "ID"
    ensures 'P' !in r && 'T' !in r
  {
    IdField(CentreTubeIds, tube)
  }

  /**
   * `_get_non_stock_flight` of this revision: the ID field is the tube's
   * table entry, "" for an unlisted tube.
   */
  function NonStockFlight(nonStock: string, diameter: int, tube: string, rotation: string): (r: string)
    ensures r == "" <==> nonStock == ""
    ensures nonStock != "" ==>
      r == Join(P.NonStockFields(P.ParseFlightValues(nonStock), diameter, CentreTubeId(tube), rotation), " ")
           + " - Non-Stocked"
    ensures nonStock != "" && !HasKey(CentreTubeIds, tube) ==>
      r == Join(P.NonStockFields(P.ParseFlightValues(nonStock), diameter, "", rotation), " ") + " - Non-Stocked"
  {
    P.NonStockName(nonStock, diameter, CentreTubeId(tube), rotation)
  }

  /** The non-stocked flight name carries the pitch and thickness of the description it was built from. */
  lemma NonStockFlightReadBack(nonStock: string, diameter: int, tube: string, rotation: string)
    requires nonStock != ""
    ensures SearchNumber(NonStockFlight(nonStock, diameter, tube, rotation), "P") == Some(P.ParseFlightValues(nonStock).pitch)
    ensures SearchNumber(NonStockFlight(nonStock, diameter, tube, rotation), "T") == Some(P.ParseFlightValues(nonStock).thickness)
  {
    P.NonStockNamePitch(nonStock, diameter, CentreTubeId(tube), rotation);
    P.NonStockNameThickness(nonStock, diameter, CentreTubeId(tube), rotation);
  }

  /**
   * `_get_non_stock_lead_carrier_flight`: the non-stocked lead flight with
   * the lead quantity and the non-stocked carrier flight with the carrier
   * quantity, `(None, 0)` for a missing description.
   */
  function NonStockLeadCarrierFlight(auger: string, diameter: int, tube: string, nLead: string, nCarrier: string,
                                     rotation: string, carrierQty: real): (r: seq<Line>)
    ensures |r| == 2
    ensures r[0] == (if nLead == "" then NoLine
                     else Line(NonStockFlight(nLead, diameter, tube, rotation), AugerFlights.LeadQty(auger, diameter) as real))
    ensures r[1] == (if nCarrier == "" then NoLine else Line(NonStockFlight(nCarrier, diameter, tube, rotation), carrierQty))
  {
    [NonStockLine(nLead, diameter, tube, rotation, AugerFlights.LeadQty(auger, diameter) as real),
     NonStockLine(nCarrier, diameter, tube, rotation, carrierQty)]
  }

  /** One non-stocked flight with its quantity, or `(None, 0)` when its name is empty. */
  function NonStockLine(nonStock: string, diameter: int, tube: string, rotation: string, qty: real): (r: Line)
    ensures r == (if nonStock == "" then NoLine else Line(NonStockFlight(nonStock, diameter, tube, rotation), qty))
  {
    var name := NonStockFlight(nonStock, diameter, tube, rotation);
    Line(name, if name != "" then qty else 0.0)
  }

  /** What `_get_flight_brace_components` returns here: a brace table, or a single placeholder pair. */
  datatype BraceComponents = Buckets(table: seq<(Span, Line)>) | Placeholder(line: Line)

  /**
   * `_get_flight_brace_components`: the `(None, 0)` pair for the nine
   * excluded heads, otherwise the bom_automation_v1.py brace table.
   */
  function FlightBraceComponents(head: string, carrierType: string): (r: BraceComponents)
    ensures r.Placeholder? <==> head in AugerParts.FlightBraceExcluded
    ensures r.Placeholder? ==> r.line == NoLine
    ensures r.Buckets? ==> r.table == V1.FlightBraceComponents(head, carrierType) && r.table != []
  {
    if head in AugerParts.FlightBraceExcluded then Placeholder(NoLine)
    else Buckets(AugerParts.BraceTable(V1.BraceQty(carrierType)))
  }

  /**
   * `_get_range_per_diameter` on what `_get_flight_brace_components`
   * returns: a pair has no `items`, so it raises `AttributeError`; a table
   * gives the diameter's bucket, `(None, 0)` when no bucket holds it.
   */
  function ResolveBrace(c: BraceComponents, diameter: int): (r: Result<Line>)
    ensures r.Fail? <==> c.Placeholder?
    ensures r.Fail? ==> r.error == AttributeError
  {
    match c
    case Placeholder(_) => Fail(AttributeError)
    case Buckets(t) =>
      match Select(t, diameter)
      case None => Ok(NoLine)
      case Some(l) => Ok(l)
  }

  /** The brace step of `_get_bp_dual_taper_rock`: as in bom_automation_v1.py, an excluded head raises. */
  lemma DualTaperBraceAsV1(head: string, carrierType: string, diameter: int)
    ensures ResolveBrace(FlightBraceComponents(head, carrierType), diameter) == V1.DualTaperBrace(head, carrierType, diameter)
  {
  }

  /**
   * The brace step of `_get_bp_zed`: the guard tests the truth of what
   * `_get_flight_brace_components` returned, and a `(None, 0)` pair is a
   * non-empty tuple, so an excluded head still reaches the resolver and
   * raises `AttributeError`.
   */
  function ZedBrace(head: string, carrierType: string, diameter: int): (r: Result<Line>)
    ensures r.Fail? <==> head in AugerParts.FlightBraceExcluded
    ensures r.Fail? ==> r.error == AttributeError
    ensures r.Ok? ==> r.value == V1.ZedBrace(head, carrierType, diameter)
  {
    var c := FlightBraceComponents(head, carrierType);
    var truthy := c.Placeholder? || c.table != [];
    if truthy then ResolveBrace(c, diameter) else Ok(NoLine)
  }

  /** A ZED auger on a custom head raises here where bom_automation_v1.py gives it no brace. */
  lemma ZedBraceCustomHead(carrierType: string, diameter: int)
    ensures ZedBrace("Custom Head", carrierType, diameter) == Fail(AttributeError)
    ensures V1.ZedBrace("Custom Head", carrierType, diameter) == NoLine
  {
    assert AugerParts.FlightBraceExcluded[8] == "Custom Head";
  }

  /**
   * `_get_teeth_blade` as written: `pilot` is overwritten with the pilot's
   * part name before the support is chosen, so the support is always one
   * OD101 pipe and the end cap always `(None, 0)`.
   */
  function BladeTeeth(diameter: int, pilot: string): (r: seq<Line>)
    ensures r == [] <==> !HasKey(AugerTeeth.BladeDiameters, diameter)
    ensures r != [] ==> |r| == 5 && r[3] == Line(T.PipeSupport, 1.0) && r[4] == NoLine
  {
    T.BladeLines(diameter, pilot, Line(T.PipeSupport, 1.0))
  }

  /** The blade parts differ from bom_automation_v2.py only in the support's quantity: one pipe, not a quarter. */
  lemma BladeTeethAgainstV2(diameter: int, pilot: string)
    ensures |BladeTeeth(diameter, pilot)| == |T.BladeTeeth(diameter, pilot)|
    ensures forall i :: 0 <= i < |BladeTeeth(diameter, pilot)| && i != 3 ==>
      BladeTeeth(diameter, pilot)[i] == T.BladeTeeth(diameter, pilot)[i]
    ensures BladeTeeth(diameter, pilot) != [] ==>
      BladeTeeth(diameter, pilot)[3].qty == 1.0 && T.BladeTeeth(diameter, pilot)[3].qty == 0.25
  {
  }

  /**
   * `_get_teeth_blade` as evidently intended: the hex fishtail pilot sits on
   * the hex pilot support, which has an end cap.
   */
  function BladeTeethIntended(diameter: int, pilot: string): (r: seq<Line>)
    ensures r == [] <==> !HasKey(AugerTeeth.BladeDiameters, diameter)
    ensures r != [] && pilot == T.FishtailPilot ==>
      |r| == 5 && r[3] == Line("Pilot Support - Hex", 1.0) && r[4] == Line("End Cap - Suit Hex Pilot Support", 1.0)
    ensures r != [] && pilot != T.FishtailPilot ==> r == BladeTeeth(diameter, pilot)
  {
    var lines := BladeTeeth(diameter, pilot);
    if lines != [] && pilot == T.FishtailPilot then
      lines[..3] + [Line("Pilot Support - Hex", 1.0), Line("End Cap - Suit Hex Pilot Support", 1.0)]
    else lines
  }

  /** A 300mm blade auger with the hex fishtail pilot gets the pipe support and no end cap as written. */
  lemma BladeHexPilotExample()
    ensures BladeTeeth(300, T.FishtailPilot)[3] == Line(T.PipeSupport, 1.0)
    ensures BladeTeeth(300, T.FishtailPilot)[4] == NoLine
    ensures BladeTeethIntended(300, T.FishtailPilot)[3] == Line("Pilot Support - Hex", 1.0)
  {
  }
}
