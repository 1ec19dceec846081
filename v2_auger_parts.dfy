/**
 * The bored-pile helpers of bom_automation_v2.py (`_get_bp_dhead_ears`,
 * `_get_tube_guesset`, `_get_center_tube`, `_get_center_tube_zed`,
 * `_get_flight_brace_components`, `_get_carrier_flight_qty`,
 * `_get_cflight_qty`, `_get_non_stock_lead_carrier_flight`,
 * `_get_non_or_stock_flights`, `_parse_flight_values`).
 *
 * This revision reads the flights from four attributes: the stocked
 * `>Lead Flight` and `>Carrier Flight` names and the `* NON-STOCKED` lead and
 * carrier flight descriptions, from which it builds a "Non-Stocked" flight
 * name. Centre tubes are measured in millimetres without rounding, and the
 * carrier quantity divides without a zero guard. The base plate, the ZED
 * centre table, the teeth-count formula and the stocked flight lines are the
 * product_product.py ones (`AugerParts.BasePlate`, `AugerParts.ZedCentre`,
 * `AugerTeeth.OddTeethQty`, `AugerFlights.StockLeadCarrierFlight`).
 * bom_automation_v1.py and bp_bom_automation.py carry the same helpers unless
 * `BoredPileV1` says otherwise.
 */
module AugerPartsV2 {
  import opened BomWrappers
  import opened PyNum
  import opened PyText
  import opened PyRegex
  import opened Bom
  import opened RangeTable
  import AugerParts
  import AugerTeeth
  import AugerFlights

  const Head130 := "Drive Head - 130mm Square"
  const Head130Digga := "Drive Head - 130mm Square DIGGA"

  /** `_get_bp_dhead_ears`: two ears for the 130mm square head, four for its DIGGA version, none for any other head. */
  function DriveHeadEars(head: string): (r: Line)
    ensures Named(r) <==> head == Head130 || head == Head130Digga
    ensures head == Head130 ==> r == Line("Drive Head EARS - 130mm Square", 2.0)
    ensures head == Head130Digga ==> r == Line("Drive Head EARS - 130mm Square DIGGA", 4.0)
    ensures !Named(r) ==> r == NoLine
  {
    if head != Head130Digga && head != Head130 then NoLine
    else if head == Head130 then Line("Drive Head EARS - 130mm Square", 2.0)
    else Line("Drive Head EARS - 130mm Square DIGGA", 4.0)
  }

  const Gusset100To110: seq<(string, string)> := [
    ("Hollow Bar - OD128mm WT 11.5mm", "Gusset - 100mm Drive 150mm Tube"),
    ("Hollow Bar - OD150mm ID120mm", "Gusset - 100mm Drive 150mm Tube"),
    ("Hollow Bar - OD152mm WT 26mm", "Gusset - 100mm Drive 150mm Tube"),
    ("Hollow Bar - OD152mm WT 33.5mm", "Gusset - 100mm Drive 150mm Tube"),
    ("Hollow Bar - OD168mm WT 21.5mm", "Gusset - 100mm Drive 170mm Tube"),
    ("Hollow Bar - OD168mm WT 29mm", "Gusset - 100mm Drive 170mm Tube"),
    ("Hollow Bar - OD180mm ID140mm", "Gusset - 100mm Drive 170mm Tube"),
    ("Hollow Bar - OD180 ID150", "Gusset - 100mm Drive 170mm Tube"),
    ("Hollow bar - OD200 ID150", "Gusset - 100mm Drive 170mm Tube"),
    ("Hollow Bar - OD219mm WT 25mm", "Gusset - 100mm Drive 219mm Tube "),
    ("Pipe - OD168mm WT11mm", "Gusset - 100mm Drive 170mm Tube"),
    ("Pipe - OD219mm WT12.7mm", "Gusset - 100mm Drive 219mm Tube")
  ]

  const Gusset130: seq<(string, string)> := [
    ("Hollow Bar - OD150mm ID120mm", "Gusset - 130mm Drive 150mm Tube"),
    ("Hollow Bar - OD152mm WT 26mm", "Gusset - 130mm Drive 150mm Tube"),
    ("Hollow Bar - OD152mm WT 33.5mm", "Gusset - 130mm Drive 150mm Tube"),
    ("Hollow Bar - OD168mm WT 21.5mm", "Gusset - 130mm Drive 170mm Tube"),
    ("Hollow Bar - OD168mm WT 29mm", "Gusset - 130mm Drive 170mm Tube"),
    ("Hollow Bar - OD180mm ID140mm", "Gusset - 130mm Drive 170mm Tube"),
    ("Hollow Bar - OD180 ID150", "Gusset - 130mm Drive 170mm Tube"),
    ("Hollow bar - OD200 ID150", "Gusset - 130mm Drive 170mm Tube"),
    ("Hollow Bar - OD219mm WT 25mm", "Gusset - 130mm Drive 219mm Tube"),
    ("Hollow bar - OD273mm WT14", "Gusset - 130mm Drive 273mm Tube"),
    ("Hollow Bar - OD273mm WT 25mm", "Gusset - 130mm Drive 273mm Tube"),
    ("Hollow Bar - OD273mm WT 32mm", "Gusset - 130mm Drive 273mm Tube"),
    ("Hollow Bar - OD323mm WT25mm", "Gusset - 130mm Drive 323mm Tube"),
    ("Hollow Bar - OD323mm WT30mm", "Gusset - 130mm Drive 323mm Tube"),
    ("Hollow Bar - OD356 ID306", "Gusset - 130mm Drive 323mm Tube"),
    ("Hollow bar - OD457mm T35mm", "Gusset - 130mm Drive 323mm Tube"),
    ("Hollow bar - OD457mm T25mm", "Gusset - 130mm Drive 323mm Tube"),
    ("Pipe - OD168mm WT11mm", "Gusset - 130mm Drive 170mm Tube"),
    ("Pipe - OD219mm WT12.7mm", "Gusset - 130mm Drive 219mm Tube"),
    ("Pipe - OD273mm WT12.7mm", "Gusset - 130mm Drive 273mm Tube"),
    ("Pipe - OD323mm WT12.7mm ", "Gusset - 130mm Drive 323mm Tube"),
    ("Pipe - OD355mm WT12.7mm ", "Gusset - 130mm Drive 323mm Tube"),
    ("Pipe - OD457mm WT15.9mm ", "Gusset - 130mm Drive 323mm Tube")
  ]

  const Gusset150: seq<(string, string)> := [
    ("Hollow Bar - OD150mm ID120mm", "Gusset - 150mm Drive 150mm Tube"),
    ("Hollow Bar - OD152mm WT 26mm", "Gusset - 150mm Drive 150mm Tube"),
    ("Hollow Bar - OD152mm WT 33.5mm", "Gusset - 150mm Drive 150mm Tube"),
    ("Hollow Bar - OD168mm WT 21.5mm", "Gusset - 150mm Drive 170mm Tube"),
    ("Hollow Bar - OD168mm WT 29mm", "Gusset - 150mm Drive 170mm Tube"),
    ("Hollow Bar - OD180mm ID140mm", "Gusset - 150mm Drive 170mm Tube"),
    ("Hollow Bar - OD180 ID150", "Gusset - 150mm Drive 170mm Tube"),
    ("Hollow bar - OD200 ID150", "Gusset - 150mm Drive 170mm Tube"),
    ("Hollow Bar - OD219mm WT 25mm", "Gusset - 150mm Drive 170mm Tube"),
    ("Hollow bar - OD273mm WT14", "Gusset - 150mm Drive 273mm Tube"),
    ("Hollow Bar - OD273mm WT 25mm", "Gusset - 150mm Drive 273mm Tube"),
    ("Hollow Bar - OD273mm WT 32mm", "Gusset - 150mm Drive 273mm Tube"),
    ("Hollow Bar - OD323mm WT25mm", "Gusset - 150mm Drive 273mm Tube"),
    ("Hollow Bar - OD323mm WT30mm", "Gusset - 150mm Drive 273mm Tube"),
    ("Hollow Bar - OD356 ID306", "Gusset - 150mm Drive 273mm Tube"),
    ("Hollow bar - OD457mm T35mm", "Gusset - 150mm Drive 273mm Tube"),
    ("Hollow bar - OD457mm T25mm", "Gusset - 150mm Drive 273mm Tube"),
    ("Pipe - OD168mm WT11mm", "Gusset - 130mm Drive 170mm Tube"),
    ("Pipe - OD219mm WT12.7mm", "Gusset - 130mm Drive 219mm Tube"),
    ("Pipe - OD273mm WT12.7mm", "Gusset - 150mm Drive 273mm Tube"),
    ("Pipe - OD323mm WT12.7mm ", "Gusset - 150mm Drive 273mm Tube"),
    ("Pipe - OD355mm WT12.7mm ", "Gusset - 150mm Drive 273mm Tube"),
    ("Pipe - OD457mm WT15.9mm ", "Gusset - 150mm Drive 273mm Tube")
  ]

  const Gusset200: seq<(string, string)> := [
    ("Hollow Bar - OD168mm WT 21.5mm", "Gusset - 200mm Drive 170mm Tube"),
    ("Hollow Bar - OD168mm WT 29mm", "Gusset - 200mm Drive 170mm Tube"),
    ("Hollow Bar - OD180mm ID140mm", "Gusset - 200mm Drive 170mm Tube"),
    ("Hollow Bar - OD180 ID150", "Gusset - 200mm Drive 170mm Tube"),
    ("Hollow bar - OD200 ID150", "Gusset - 200mm Drive 170mm Tube"),
    ("Hollow Bar - OD219mm WT 25mm", "Gusset - 200mm Drive 170mm Tube"),
    ("Hollow bar - OD273mm WT14", "Gusset - 200mm Drive 273mm Tube"),
    ("Hollow Bar - OD273mm WT 25mm", "Gusset - 200mm Drive 273mm Tube"),
    ("Hollow Bar - OD273mm WT 32mm", "Gusset - 200mm Drive 273mm Tube"),
    ("Hollow Bar - OD323mm WT25mm", "Gusset - 200mm Drive 273mm Tube"),
    ("Hollow Bar - OD323mm WT30mm", "Gusset - 200mm Drive 273mm Tube"),
    ("Hollow Bar - OD356 ID306", "Gusset - 200mm Drive 273mm Tube"),
    ("Hollow bar - OD457mm T35mm", "Gusset - 200mm Drive 273mm Tube"),
    ("Hollow bar - OD457mm T25mm", "Gusset - 200mm Drive 273mm Tube"),
    ("Pipe - OD168mm WT11mm", "Gusset - 200mm Drive 170mm Tube"),
    ("Pipe - OD219mm WT12.7mm", "Gusset - 200mm Drive 170mm Tube"),
    ("Pipe - OD273mm WT12.7mm", "Gusset - 200mm Drive 273mm Tube"),
    ("Pipe - OD323mm WT12.7mm ", "Gusset - 200mm Drive 273mm Tube"),
    ("Pipe - OD355mm WT12.7mm ", "Gusset - 200mm Drive 273mm Tube"),
    ("Pipe - OD457mm WT15.9mm ", "Gusset - 200mm Drive 273mm Tube")
  ]

  /** The gusset table of a head group; the groups are those of product_product.py. */
  function GussetTable(g: AugerParts.HeadGroup): (t: seq<(string, string)>)
    ensures forall i :: 0 <= i < |t| ==> t[i].1 != ""
  {
    match g
    case Head100To110 => Gusset100To110
    case Head130 => Gusset130
    case Head150 => Gusset150
    case Head200 => Gusset200
  }

  /**
   * `_get_tube_guesset`: one gusset exactly when the head belongs to a group
   * and the centre tube is in that group's table, otherwise `(None, 0)`.
   */
  function TubeGusset(head: string, tube: string): (r: Line)
    ensures Named(r) <==> AugerParts.GussetGroup(head).Some? && HasKey(GussetTable(AugerParts.GussetGroup(head).value), tube)
    ensures Named(r) ==> r.qty == 1.0 && (tube, r.name) in GussetTable(AugerParts.GussetGroup(head).value)
    ensures !Named(r) ==> r == NoLine
  {
    match AugerParts.GussetGroup(head)
    case None => NoLine
    case Some(g) =>
      match Get(GussetTable(g), tube)
      case None => NoLine
      case Some(gusset) =>
        assert gusset != "" by {
          var i :| 0 <= i < |GussetTable(g)| && GussetTable(g)[i] == (tube, gusset);
        }
        Line(gusset, 1.0)
  }

  /** The head heights of `_get_center_tube`: the head and its base plate, the Bauer head 475mm high. */
  const HeadHeights: map<string, int> := map[
    "Drive Head - 65mm Round" := 100,
    "Drive Head - 65mm Square" := 100,
    "Drive Head - 75mm Square" := 150,
    "Drive Head - 100mm Square" := 175 + 25,
    "Drive Head - 110mm Square" := 240 + 25,
    "Drive Head - 130mm Square" := 260 + 32,
    "Drive Head - 130mm Square DIGGA" := 260 + 32,
    "Drive Head - 150mm Square" := 260 + 32,
    "Drive Head - 150mm Square IMT" := 260 + 32,
    "Drive Head - 200mm Square Bauer" := 475 + 32,
    "Drive Head - 200mm Square MAIT" := 345 + 32,
    "Drive Head - 4\" Lo Drill" := 332 + 25,
    "Drive Head - 3\" Hex" := 155,
    "Drive Head - 2\" Hex" := 135
  ]

  /**
   * What the builders pass `_get_center_tube` as the pilot height key: the
   * pilot-support pair of the teeth list, or `None` when there is none.
   */
  datatype PilotKey = SupportName(name: string) | SupportPair(line: Line) | NoSupport

  /** `pilot_map.get(key, 0)`: only a support name can be a key of the pilot table. */
  function PilotHeight(k: PilotKey): (r: int)
    ensures r >= 0
    ensures !k.SupportName? ==> r == 0
  {
    match k
    case SupportName(n) => AugerParts.PilotOffset(n)
    case _ => 0
  }

  /**
   * `_get_center_tube`: the centre tube, its length in millimetres the
   * overall length less the head, its base plate and the pilot height; 0 for a
   * head outside the table.
   */
  function CentreTube(length: nat, head: string, tube: string, k: PilotKey): (r: Line)
    ensures r.name == tube
    ensures head !in HeadHeights ==> r.qty == 0.0
    ensures head in HeadHeights ==> r.qty == (length - HeadHeights[head] - PilotHeight(k)) as real
  {
    if head in HeadHeights then Line(tube, (length - HeadHeights[head] - PilotHeight(k)) as real)
    else Line(tube, 0.0)
  }

  /** As written, the pilot-support pair the builders pass never shortens the centre tube. */
  lemma CentreTubeIgnoresPair(length: nat, head: string, tube: string, support: Line)
    ensures CentreTube(length, head, tube, SupportPair(support)) == CentreTube(length, head, tube, NoSupport)
  {
  }

  /** `_get_center_tube` as evidently intended: the pilot height looked up by the support's name. */
  function CentreTubeIntended(length: nat, head: string, tube: string, support: Option<Line>): (r: Line)
    ensures r.name == tube
    ensures head in HeadHeights && support.Some? ==>
      r.qty == (length - HeadHeights[head] - AugerParts.PilotOffset(support.value.name)) as real
  {
    CentreTube(length, head, tube, if support.Some? then SupportName(support.value.name) else NoSupport)
  }

  /** With the hex pilot support under a 75mm head the intended tube is 75mm shorter than the one written. */
  lemma CentreTubeHexExample(length: nat)
    ensures CentreTube(length, "Drive Head - 75mm Square", "Hollow Bar - OD150mm ID120mm",
                       SupportPair(Line("Pilot Support - Hex", 1.0))).qty == (length - 150) as real
    ensures CentreTubeIntended(length, "Drive Head - 75mm Square", "Hollow Bar - OD150mm ID120mm",
                               Some(Line("Pilot Support - Hex", 1.0))).qty == (length - 225) as real
  {
    assert AugerParts.PilotOffsets["Pilot Support - Hex"] == 75;
  }

  /**
   * Apart from the Bauer head (475mm here, 457mm there), this tube is the
   * product_product.py centre tube before it is turned into metres and
   * rounded.
   */
  lemma CentreTubeInMillimetres(length: nat, head: string, tube: string)
    requires head != "Drive Head - 200mm Square Bauer"
    ensures head in HeadHeights <==> head in AugerParts.HeadAllowances
    ensures head in HeadHeights ==>
      AugerParts.CentreTubeFor(length, head, tube, "").qty == Round2(CentreTube(length, head, tube, NoSupport).qty / 1000.0)
  {
    if head in HeadHeights {
      assert HeadHeights[head] == AugerParts.HeadAllowances[head];
      assert AugerParts.PilotOffset("") == 0;
      var a := HeadHeights[head];
      assert (length as real - a as real) / 1000.0 == (length - a) as real / 1000.0;
    }
  }

  /** The length each ZED centre takes from the centre tube; the 273mm centre takes 25mm more than the 219mm one. */
  const ZedCentreHeights: map<string, real> := map[
    "ZED Centre 150mm" := 133.5,
    "ZED Centre 168mm" := 147.5,
    "ZED Centre 219mm" := 163.0,
    "ZED Centre 273mm" := 25.0 + 163.0
  ]

  /** The head heights of `_get_center_tube_zed`: the head alone, 0 for a head outside the table. */
  function ZedHeadHeight(head: string): (r: int)
    ensures head !in AugerParts.ZedHeadHeights ==> r == 0
    ensures head in AugerParts.ZedHeadHeights ==> r == AugerParts.ZedHeadHeights[head][0]
  {
    if head in AugerParts.ZedHeadHeights && |AugerParts.ZedHeadHeights[head]| > 0 then AugerParts.ZedHeadHeights[head][0]
    else 0
  }

  /**
   * `_get_center_tube_zed`: the centre tube, its length in millimetres the
   * overall length less the head and the ZED centre, 0 without a ZED centre.
   * Unlike product_product.py, which raises for an unlisted head, an
   * unknown head here is 0mm high.
   */
  function ZedCentreTube(length: nat, head: string, tube: string, centre: string): (r: Line)
    ensures r.name == tube
    ensures centre !in ZedCentreHeights ==> r.qty == 0.0
    ensures centre in ZedCentreHeights ==>
      (length - ZedHeadHeight(head)) as real - 188.0 <= r.qty <= (length - ZedHeadHeight(head)) as real - 133.5
    ensures centre in ZedCentreHeights ==> r.qty == (length - ZedHeadHeight(head)) as real - ZedCentreHeights[centre]
  {
    if centre in ZedCentreHeights then Line(tube, (length - ZedHeadHeight(head)) as real - ZedCentreHeights[centre])
    else Line(tube, 0.0)
  }

  /** `_get_flight_brace_components`: no table for excluded heads, else one brace with a carrier flight and two without. */
  function FlightBraceComponents(head: string, carrierFlight: string): (r: seq<(Span, Line)>)
    ensures r == [] <==> head in AugerParts.FlightBraceExcluded
    ensures r != [] ==> r == AugerParts.BraceTable(if carrierFlight != "" then 1.0 else 2.0)
  {
    if head in AugerParts.FlightBraceExcluded then []
    else AugerParts.BraceTable(if carrierFlight != "" then 1.0 else 2.0)
  }

  /**
   * The brace a builder takes: the resolved bucket when there is a table,
   * `(None, 0)` otherwise.
   */
  function FlightBrace(head: string, carrierFlight: string, diameter: int): (r: Line)
    ensures r == (if head in AugerParts.FlightBraceExcluded then NoLine
                  else AugerParts.BraceFor(diameter, if carrierFlight != "" then 1.0 else 2.0))
  {
    var t := FlightBraceComponents(head, carrierFlight);
    AugerParts.SelectBrace(diameter, if carrierFlight != "" then 1.0 else 2.0);
    if t == [] then NoLine
    else match Select(t, diameter)
      case None => NoLine
      case Some(l) => l
  }

  /** The auger types `_get_cflight_qty` computes a quantity for. */
  predicate Listed(auger: string)
  {
    auger in AugerFlights.AugerTypes || auger in ["Clay/Shale", "Blade"] || auger == "Triad Rock"
  }

  /**
   * `_get_cflight_qty` without the zero guard: a listed type divides by the
   * carrier pitch times turns and raises when that is 0; otherwise the result
   * is the product_product.py quantity.
   */
  function CarrierFlightQty(auger: string, length: int, leadPitch: int, leadTurns: real,
                            carrierPitch: int, carrierTurns: real): (r: Result<real>)
    ensures r.Fail? <==> Listed(auger) && carrierPitch as real * carrierTurns == 0.0
    ensures r.Fail? ==> r.error == ZeroDivisionError
    ensures r.Ok? ==> r.value == AugerFlights.CarrierFlightQty(auger, length, leadPitch, leadTurns, carrierPitch, carrierTurns)
  {
    if !Listed(auger) then Ok(0.0)
    else if carrierPitch as real * carrierTurns == 0.0 then Fail(ZeroDivisionError)
    else Ok(CeilHalf(AugerFlights.CarrierRaw(auger, length, leadPitch, leadTurns, carrierPitch, carrierTurns)))
  }

  /** `_get_pitch` of `_get_carrier_flight_qty`: the `P` number (1 without one) and the `R` turns (1 without them). */
  function PitchTurns(name: string): (r: (nat, real))
    ensures r.1 == AugerFlights.PitchTurns(name).1
    ensures SearchNumber(name, "P").Some? ==> r.0 == AugerFlights.PitchTurns(name).0
    ensures SearchNumber(name, "P").None? ==> r.0 == 1 && AugerFlights.PitchTurns(name).0 == 0
  {
    (match SearchNumber(name, "P") case Some(p) => p case None => 1, AugerFlights.PitchTurns(name).1)
  }

  /**
   * The lead and carrier names `_get_carrier_flight_qty` reads pitches from:
   * the stocked pair, the non-stocked pair, the stocked lead with the
   * non-stocked carrier, or the stocked carrier (as lead) with the non-stocked
   * lead (as carrier), the first whose two names are set.
   */
  function FlightPair(lead: string, carrier: string, nLead: string, nCarrier: string): (r: Option<(string, string)>)
    ensures r.None? <==> (lead == "" && nLead == "") || (carrier == "" && nCarrier == "")
    ensures r.Some? ==> r.value.0 != "" && r.value.1 != ""
    ensures lead != "" && carrier != "" ==> r == Some((lead, carrier))
    ensures (lead == "" || carrier == "") && nLead != "" && nCarrier != "" ==> r == Some((nLead, nCarrier))
  {
    if lead != "" && carrier != "" then Some((lead, carrier))
    else if nLead != "" && nCarrier != "" then Some((nLead, nCarrier))
    else if lead != "" && nCarrier != "" then Some((lead, nCarrier))
    else if carrier != "" && nLead != "" then Some((carrier, nLead))
    else None
  }

  /**
   * `_get_carrier_flight_qty`: the flighted length must hold a number
   * (`IndexError`); without a pair of flights every pitch stays 0, so a
   * listed auger type divides by zero and any other gets 0.
   */
  function CarrierQty(auger: string, lead: string, carrier: string, nLead: string, nCarrier: string,
                      flightedLength: string): (r: Result<real>)
    ensures FirstNumber(flightedLength).None? ==> r == Fail(IndexError)
    ensures FirstNumber(flightedLength).Some? && FlightPair(lead, carrier, nLead, nCarrier).None? ==>
      (r == Fail(ZeroDivisionError) <==> Listed(auger)) && (!Listed(auger) ==> r == Ok(0.0))
    ensures FirstNumber(flightedLength).Some? && FlightPair(lead, carrier, nLead, nCarrier).Some? ==>
      var p := FlightPair(lead, carrier, nLead, nCarrier).value;
      r == CarrierFlightQty(auger, FirstNumber(flightedLength).value,
                            PitchTurns(p.0).0, PitchTurns(p.0).1, PitchTurns(p.1).0, PitchTurns(p.1).1)
  {
    match FirstNumber(flightedLength)
    case None => Fail(IndexError)
    case Some(length) =>
      match FlightPair(lead, carrier, nLead, nCarrier)
      case None => CarrierFlightQty(auger, length, 0, 0.0, 0, 0.0)
      case Some((l, c)) =>
        var (lp, lt) := PitchTurns(l);
        var (cp, ct) := PitchTurns(c);
        CarrierFlightQty(auger, length, lp, lt, cp, ct)
  }

  /** The pitch, thickness and turns `_parse_flight_values` reads, 0 for each it does not find. */
  datatype FlightValues = FlightValues(pitch: nat, thickness: nat, turns: Option<Decimal>)

  /** `_parse_flight_values` */
  function ParseFlightValues(s: string): (r: FlightValues)
    ensures r.pitch == AugerFlights.OrZero(SearchNumber(s, "P"))
    ensures r.thickness == AugerFlights.OrZero(SearchNumber(s, "T"))
    ensures r.turns.Some? <==> SearchDecimal(s, "R").Some?
  {
    FlightValues(AugerFlights.OrZero(SearchNumber(s, "P")), AugerFlights.OrZero(SearchNumber(s, "T")),
                 match SearchDecimal(s, "R") case Some(t) => Some(TokenDecimal(t)) case None => None)
  }

  /** The ID field: the `- <digits>` number of the centre tube, else its `OD` number, else "". */
  function TubeId(tube: string): (r: string)
    ensures r == "" <==> SearchDashNumber(tube).None? && SearchNumber(tube, "OD").None?
    ensures r != "" ==> r == NatText(AugerFlights.TubeBore(tube))
    ensures AllDigits(r)
  {
    match SearchDashNumber(tube)
    case Some(n) => NatText(n)
    case None =>
      match SearchNumber(tube, "OD")
      case Some(n) => NatText(n)
      case None => ""
  }

  /** The seven space-separated fields of a non-stocked flight name, before the suffix; `id` is the ID field. */
  function NonStockFields(spec: FlightValues, diameter: int, id: string, rotation: string): (f: seq<string>)
    ensures |f| == 7 && f[2] == id
  {
    ["Flight -",
     "OD" + IntText(diameter - AugerTeeth.Clearance(diameter)),
     id,
     "P" + NatText(spec.pitch),
     "T" + NatText(spec.thickness),
     if rotation == "Right Hand Rotation" then "RH" else "LH",
     "R" + (if spec.turns.Some? then FloatText(spec.turns.value) else "0")]
  }

  /**
   * `_get_non_stock_flight` with a given ID field: "" for an empty
   * description, otherwise "Flight - OD<d> <id> P<p> T<t> RH|LH R<turns> -
   * Non-Stocked", the OD being the diameter less 20mm below 1500mm and less
   * 30mm from there.
   */
  function NonStockName(nonStock: string, diameter: int, id: string, rotation: string): (r: string)
    ensures r == "" <==> nonStock == ""
    ensures nonStock != "" ==>
      r == Join(NonStockFields(ParseFlightValues(nonStock), diameter, id, rotation), " ") + " - Non-Stocked"
  {
    if nonStock == "" then ""
    else
      var f := NonStockFields(ParseFlightValues(nonStock), diameter, id, rotation);
      AugerFlights.JoinSeven(f);
      Join(f, " ") + " - Non-Stocked"
  }

  /** `_get_non_stock_flight` of this revision: the ID field is the tube's number. */
  function NonStockFlight(nonStock: string, diameter: int, tube: string, rotation: string): (r: string)
    ensures r == "" <==> nonStock == ""
    ensures nonStock != "" ==>
      r == Join(NonStockFields(ParseFlightValues(nonStock), diameter, TubeId(tube), rotation), " ") + " - Non-Stocked"
  {
    NonStockName(nonStock, diameter, TubeId(tube), rotation)
  }

  /** The fields before the pitch hold no `P` and no `T`. */
  lemma HeadFree(x: int, id: string)
    requires 'P' !in id && 'T' !in id
    ensures var h := "Flight -" + " " + ("OD" + IntText(x)) + " " + id + " ";
      'P' !in h && 'T' !in h
  {
    AugerFlights.IntTextChars(x);
    assert 'P' !in IntText(x) && 'T' !in IntText(x);
  }

  /** The name split before the pitch field and before the thickness field. */
  lemma NonStockShape(nonStock: string, diameter: int, id: string, rotation: string)
    requires nonStock != ""
    ensures var f := NonStockFields(ParseFlightValues(nonStock), diameter, id, rotation);
      var head := f[0] + " " + f[1] + " " + f[2] + " ";
      var after := f[5] + " " + f[6] + " - Non-Stocked";
      NonStockName(nonStock, diameter, id, rotation) == head + (f[3] + (" " + (f[4] + " " + after)))
      && NonStockName(nonStock, diameter, id, rotation) == (head + (f[3] + " ")) + (f[4] + (" " + after))
  {
    var f := NonStockFields(ParseFlightValues(nonStock), diameter, id, rotation);
    AugerFlights.JoinSeven(f);
    var head := f[0] + " " + f[1] + " " + f[2] + " ";
    var tail := f[5] + " " + f[6];
    var sfx := " - Non-Stocked";
    AugerFlights.Assoc(head, f[3] + (" " + (f[4] + " " + tail)), sfx);
    AugerFlights.Assoc(f[3], " " + (f[4] + " " + tail), sfx);
    AugerFlights.Assoc(" ", f[4] + " " + tail, sfx);
    AugerFlights.Assoc(f[4] + " ", tail, sfx);
    AugerFlights.Assoc(f[3], " ", f[4] + (" " + (tail + sfx)));
    AugerFlights.Assoc(head, f[3] + " ", f[4] + (" " + (tail + sfx)));
    AugerFlights.Assoc(f[4], " ", tail + sfx);
  }

  /**
   * A non-stocked flight name whose ID field holds no `P` carries the pitch
   * of the description it was built from.
   */
  lemma NonStockNamePitch(nonStock: string, diameter: int, id: string, rotation: string)
    requires nonStock != "" && 'P' !in id && 'T' !in id
    ensures SearchNumber(NonStockName(nonStock, diameter, id, rotation), "P") == Some(ParseFlightValues(nonStock).pitch)
  {
    var spec := ParseFlightValues(nonStock);
    var f := NonStockFields(spec, diameter, id, rotation);
    NonStockShape(nonStock, diameter, id, rotation);
    HeadFree(diameter - AugerTeeth.Clearance(diameter), id);
    AugerFlights.PitchReadBack(f[0] + " " + f[1] + " " + f[2] + " ", spec.pitch, f[4] + " " + (f[5] + " " + f[6] + " - Non-Stocked"));
  }

  /**
   * A non-stocked flight name whose ID field holds no `P` or `T` carries the
   * thickness of the description it was built from.
   */
  lemma NonStockNameThickness(nonStock: string, diameter: int, id: string, rotation: string)
    requires nonStock != "" && 'P' !in id && 'T' !in id
    ensures SearchNumber(NonStockName(nonStock, diameter, id, rotation), "T") == Some(ParseFlightValues(nonStock).thickness)
  {
    var spec := ParseFlightValues(nonStock);
    var f := NonStockFields(spec, diameter, id, rotation);
    NonStockShape(nonStock, diameter, id, rotation);
    HeadFree(diameter - AugerTeeth.Clearance(diameter), id);
    var head := f[0] + " " + f[1] + " " + f[2] + " ";
    assert 'T' !in f[3] + " ";
    assert 'T' !in head + (f[3] + " ");
    var after := f[5] + " " + f[6] + " - Non-Stocked";
    SearchSkip(head + (f[3] + " "), f[4] + (" " + after), "T");
    SearchNumberWritten("T", spec.thickness, " " + after);
  }

  /** The tube's number holds neither `P` nor `T`. */
  lemma TubeIdFree(tube: string)
    ensures 'P' !in TubeId(tube) && 'T' !in TubeId(tube)
  {
    var id := TubeId(tube);
    assert forall i :: 0 <= i < |id| ==> IsDigit(id[i]);
  }

  /** The non-stocked flight name carries the pitch and thickness of the description it was built from. */
  lemma NonStockFlightReadBack(nonStock: string, diameter: int, tube: string, rotation: string)
    requires nonStock != ""
    ensures SearchNumber(NonStockFlight(nonStock, diameter, tube, rotation), "P") == Some(ParseFlightValues(nonStock).pitch)
    ensures SearchNumber(NonStockFlight(nonStock, diameter, tube, rotation), "T") == Some(ParseFlightValues(nonStock).thickness)
  {
    TubeIdFree(tube);
    NonStockNamePitch(nonStock, diameter, TubeId(tube), rotation);
    NonStockNameThickness(nonStock, diameter, TubeId(tube), rotation);
  }

  /**
   * `_get_non_stock_lead_carrier_flight`: the non-stocked lead flight with
   * the lead quantity and the non-stocked carrier flight with the carrier
   * quantity, `(None, 0)` for a missing description.
   */
  function NonStockLeadCarrierFlight(auger: string, diameter: int, tube: string, nLead: string, nCarrier: string,
                                     rotation: string, carrierQty: real): (r: seq<Line>)
    ensures |r| == 2
    ensures r[0] == (if nLead == "" then NoLine
                     else Line(NonStockFlight(nLead, diameter, tube, rotation), AugerFlights.LeadQty(auger, diameter) as real))
    ensures r[1] == (if nCarrier == "" then NoLine else Line(NonStockFlight(nCarrier, diameter, tube, rotation), carrierQty))
  {
    var lead := NonStockFlight(nLead, diameter, tube, rotation);
    var carrier := NonStockFlight(nCarrier, diameter, tube, rotation);
    [Line(lead, if lead != "" then AugerFlights.LeadQty(auger, diameter) as real else 0.0),
     Line(carrier, if carrier != "" then carrierQty else 0.0)]
  }

  /** The line alone when it is named, nothing otherwise. */
  function IfNamed(l: Line): seq<Line>
  {
    if Named(l) then [l] else []
  }

  /**
   * The named lines of the pairs of two lists from position `i` on, walked
   * together up to the shorter one, the first list's line first.
   */
  function MergedFrom(a: seq<Line>, b: seq<Line>, i: nat): seq<Line>
    decreases |a| - i
  {
    if i >= |a| || i >= |b| then []
    else IfNamed(a[i]) + IfNamed(b[i]) + MergedFrom(a, b, i + 1)
  }

  /** The two lists interleaved pairwise from position `i` on, before anything is dropped. */
  function InterleaveFrom(a: seq<Line>, b: seq<Line>, i: nat): seq<Line>
    decreases |a| - i
  {
    if i >= |a| || i >= |b| then [] else [a[i], b[i]] + InterleaveFrom(a, b, i + 1)
  }

  /** Merging is keeping the named lines of the pairwise interleaving. */
  lemma {:induction false} MergedKeepsNamed(a: seq<Line>, b: seq<Line>, i: nat)
    ensures MergedFrom(a, b, i) == KeepNamed(InterleaveFrom(a, b, i))
    decreases |a| - i
  {
    if i < |a| && i < |b| {
      MergedKeepsNamed(a, b, i + 1);
      KeepAppend([a[i], b[i]], InterleaveFrom(a, b, i + 1), Named);
      assert [a[i], b[i]] == [a[i]] + [b[i]];
      KeepAppend([a[i]], [b[i]], Named);
      assert IfNamed(a[i]) == KeepNamed([a[i]]) && IfNamed(b[i]) == KeepNamed([b[i]]);
    }
  }

  /** Merging the two-line flight lists of the builders keeps the named ones of lead, lead, carrier, carrier. */
  lemma {:induction false} MergedFlights(nonStock: seq<Line>, stock: seq<Line>)
    requires |nonStock| == 2 && |stock| == 2
    ensures MergedFrom(nonStock, stock, 0) == KeepNamed([nonStock[0], stock[0], nonStock[1], stock[1]])
  {
    MergedKeepsNamed(nonStock, stock, 0);
    assert InterleaveFrom(nonStock, stock, 2) == [];
    assert InterleaveFrom(nonStock, stock, 1) == [nonStock[1], stock[1]];
    assert InterleaveFrom(nonStock, stock, 0) == [nonStock[0], stock[0]] + [nonStock[1], stock[1]];
    assert [nonStock[0], stock[0]] + [nonStock[1], stock[1]] == [nonStock[0], stock[0], nonStock[1], stock[1]];
  }

  /**
   * Concatenation regroups. Proved on its own, so that `MergeFlights` does not
   * have to show it by extensionality among all the facts of its loop.
   */
  lemma AppendAssoc(a: seq<Line>, b: seq<Line>, c: seq<Line>)
    ensures a + (b + c) == (a + b) + c
  {
  }

  /**
   * `_get_non_or_stock_flights`: walk the two lists together with `zip`,
   * appending the non-stocked line and then the stocked line of each pair
   * when it is named.
   */
  method MergeFlights(nonStock: seq<Line>, stock: seq<Line>) returns (r: seq<Line>)
    ensures r == MergedFrom(nonStock, stock, 0)
  {
    r := [];
    var i := 0;
    var n := if |nonStock| <= |stock| then |nonStock| else |stock|;
    while i < n
      invariant 0 <= i <= n
      invariant r + MergedFrom(nonStock, stock, i) == MergedFrom(nonStock, stock, 0)
    {
      ghost var r0 := r;
      ghost var step := IfNamed(nonStock[i]) + IfNamed(stock[i]);
      ghost var rest := MergedFrom(nonStock, stock, i + 1);
      assert MergedFrom(nonStock, stock, i) == step + rest;
      if Named(nonStock[i]) {
        r := r + [nonStock[i]];
      }
      if Named(stock[i]) {
        r := r + [stock[i]];
      }
      assert r == r0 + step;
      AppendAssoc(r0, step, rest);
      assert r + rest == r0 + MergedFrom(nonStock, stock, i);
      i := i + 1;
    }
  }
}
