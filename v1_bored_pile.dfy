/**
 * The bored-pile helpers in which bom_automation_v1.py departs from
 * bom_automation_v2.py: the carrier type ("Carrier Type (N/A if single or
 * STD)") doubles the carrier flights and the flight braces of a "Dual
 * Carrier" auger.
 *
 * Everything else the two files share word for word (ears, base plate,
 * gusset, centre tubes, flight names, the merge of stocked and non-stocked
 * flights and the teeth functions) is modelled once, in `AugerPartsV2` and
 * `AugerTeethV2`. bp_bom_automation.py repeats these helpers too, except
 * for what `BoredPileBp` models.
 */
module BoredPileV1 {
  import opened BomWrappers
  import opened PyNum
  import opened Bom
  import opened PyRegex
  import opened RangeTable
  import AugerParts
  import AugerFlights
  import P = AugerPartsV2

  const DualCarrier := "Dual Carrier"

  /**
   * `_get_cflight_qty` with a carrier type. Without "Dual Carrier" it is the
   * bom_automation_v2.py quantity. With it, the six auger types get twice
   * the raw count (dividing by the carrier pitch times turns, with no zero
   * guard) and every other type gets 0 without dividing. The result is
   * rounded up to a whole or half flight.
   */
  function CarrierFlightQty(auger: string, carrierType: string, length: int, leadPitch: int, leadTurns: real,
                            carrierPitch: int, carrierTurns: real): (r: Result<real>)
    ensures carrierType != DualCarrier ==>
      r == P.CarrierFlightQty(auger, length, leadPitch, leadTurns, carrierPitch, carrierTurns)
    ensures carrierType == DualCarrier ==>
      (r.Fail? <==> auger in AugerFlights.AugerTypes && carrierPitch as real * carrierTurns == 0.0)
      && (r.Fail? ==> r.error == ZeroDivisionError)
      && (auger !in AugerFlights.AugerTypes ==> r == Ok(0.0))
    ensures carrierType == DualCarrier && auger in AugerFlights.AugerTypes && r.Ok? ==>
      var twice := 2.0 * AugerFlights.CarrierRaw(auger, length, leadPitch, leadTurns, carrierPitch, carrierTurns);
      IsHalfStep(r.value) && twice <= r.value < twice + 0.5
  {
    if carrierType != DualCarrier then P.CarrierFlightQty(auger, length, leadPitch, leadTurns, carrierPitch, carrierTurns)
    else if auger !in AugerFlights.AugerTypes then Ok(0.0)
    else if carrierPitch as real * carrierTurns == 0.0 then Fail(ZeroDivisionError)
    else Ok(CeilHalf((length as real - leadPitch as real * leadTurns) / (carrierPitch as real * carrierTurns) * 2.0))
  }

  /**
   * A "Dual Carrier" auger gets at most twice the single-carrier quantity
   * and more than that less one flight: doubling before rounding saves at
   * most the one extra flight that rounding twice would add.
   */
  lemma DualCarrierNearDouble(auger: string, length: int, leadPitch: int, leadTurns: real,
                              carrierPitch: int, carrierTurns: real)
    requires auger in AugerFlights.AugerTypes && carrierPitch as real * carrierTurns != 0.0
    ensures var single := CarrierFlightQty(auger, "", length, leadPitch, leadTurns, carrierPitch, carrierTurns);
      var dual := CarrierFlightQty(auger, DualCarrier, length, leadPitch, leadTurns, carrierPitch, carrierTurns);
      single.Ok? && dual.Ok? && 2.0 * single.value - 1.0 < dual.value <= 2.0 * single.value
  {
    var raw := AugerFlights.CarrierRaw(auger, length, leadPitch, leadTurns, carrierPitch, carrierTurns);
    assert CarrierFlightQty(auger, "", length, leadPitch, leadTurns, carrierPitch, carrierTurns) == Ok(CeilHalf(raw));
    assert CarrierFlightQty(auger, DualCarrier, length, leadPitch, leadTurns, carrierPitch, carrierTurns)
      == Ok(CeilHalf(2.0 * raw));
    DoubleThenRound(raw);
  }

  /** Rounding twice a count up to a half step lands within one flight below twice the rounded count. */
  lemma DoubleThenRound(raw: real)
    ensures 2.0 * CeilHalf(raw) - 1.0 < CeilHalf(2.0 * raw) <= 2.0 * CeilHalf(raw)
  {
    var single := CeilHalf(raw);
    var k := (2.0 * single).Floor;
    assert 2.0 * (2.0 * single) == (2 * k) as real;
    assert IsHalfStep(2.0 * single);
    CeilHalfIsLeast(2.0 * raw, 2.0 * single);
  }

  /**
   * `_get_carrier_flight_qty` with a carrier type: the flighted length must
   * hold a number (`IndexError`); the pitches are read from the first pair
   * of set flights as in bom_automation_v2.py, all 0 without a pair.
   */
  function CarrierQty(auger: string, carrierType: string, lead: string, carrier: string, nLead: string,
                      nCarrier: string, flightedLength: string): (r: Result<real>)
    ensures carrierType != DualCarrier ==> r == P.CarrierQty(auger, lead, carrier, nLead, nCarrier, flightedLength)
    ensures FirstNumber(flightedLength).None? ==> r == Fail(IndexError)
    ensures FirstNumber(flightedLength).Some? && carrierType == DualCarrier ==>
      (auger !in AugerFlights.AugerTypes ==> r == Ok(0.0))
      && (auger in AugerFlights.AugerTypes && P.FlightPair(lead, carrier, nLead, nCarrier).None? ==>
            r == Fail(ZeroDivisionError))
  {
    match FirstNumber(flightedLength)
    case None => Fail(IndexError)
    case Some(length) =>
      match P.FlightPair(lead, carrier, nLead, nCarrier)
      case None => CarrierFlightQty(auger, carrierType, length, 0, 0.0, 0, 0.0)
      case Some((l, c)) =>
        var (lp, lt) := P.PitchTurns(l);
        var (cp, ct) := P.PitchTurns(c);
        CarrierFlightQty(auger, carrierType, length, lp, lt, cp, ct)
  }

  /** The brace quantity: two for "Dual Carrier", one otherwise. */
  function BraceQty(carrierType: string): (q: real)
    ensures q == 2.0 <==> carrierType == DualCarrier
    ensures q == 1.0 <==> carrierType != DualCarrier
  {
    if carrierType == DualCarrier then 2.0 else 1.0
  }

  /**
   * `_get_flight_brace_components`: an empty list for the nine excluded
   * heads, otherwise the brace table with the carrier type's quantity.
   */
  function FlightBraceComponents(head: string, carrierType: string): (r: seq<(Span, Line)>)
    ensures r == [] <==> head in AugerParts.FlightBraceExcluded
    ensures r != [] ==> r == AugerParts.BraceTable(BraceQty(carrierType))
  {
    if head in AugerParts.FlightBraceExcluded then [] else AugerParts.BraceTable(BraceQty(carrierType))
  }

  /**
   * The brace step of `_get_bp_dual_taper_rock`: the table is resolved
   * without a guard, so the empty list of an excluded head raises
   * `AttributeError` (a list has no `items`); otherwise the diameter's
   * bucket, `(None, 0)` when no bucket holds it.
   */
  function DualTaperBrace(head: string, carrierType: string, diameter: int): (r: Result<Line>)
    ensures r.Fail? <==> head in AugerParts.FlightBraceExcluded
    ensures r.Fail? ==> r.error == AttributeError
    ensures r.Ok? ==> r.value == AugerParts.BraceFor(diameter, BraceQty(carrierType))
    ensures r.Ok? && 750 <= diameter < 5000 ==> Named(r.value) && (r.value.qty == 2.0 <==> carrierType == DualCarrier)
    ensures r.Ok? && diameter < 750 ==> r.value == NoLine
  {
    var t := FlightBraceComponents(head, carrierType);
    if t == [] then Fail(AttributeError)
    else
      AugerParts.SelectBrace(diameter, BraceQty(carrierType));
      match Select(t, diameter)
      case None => Ok(NoLine)
      case Some(l) => Ok(l)
  }

  /**
   * The brace step of `_get_bp_zed`: the table is resolved only when it is
   * non-empty, so an excluded head gets no brace.
   */
  function ZedBrace(head: string, carrierType: string, diameter: int): (r: Line)
    ensures head in AugerParts.FlightBraceExcluded ==> r == NoLine
    ensures head !in AugerParts.FlightBraceExcluded ==> r == AugerParts.BraceFor(diameter, BraceQty(carrierType))
  {
    var t := FlightBraceComponents(head, carrierType);
    if t == [] then NoLine
    else
      AugerParts.SelectBrace(diameter, BraceQty(carrierType));
      match Select(t, diameter)
      case None => NoLine
      case Some(l) => l
  }

  /** Where the dual/taper brace step does not raise, it gives the ZED brace. */
  lemma BracesAgree(head: string, carrierType: string, diameter: int)
    requires DualTaperBrace(head, carrierType, diameter).Ok?
    ensures DualTaperBrace(head, carrierType, diameter).value == ZedBrace(head, carrierType, diameter)
  {
  }

  /** A dual/taper auger on a custom head raises where a ZED auger on it simply has no brace. */
  lemma DualTaperBraceCustomHead(carrierType: string, diameter: int)
    ensures DualTaperBrace("Custom Head", carrierType, diameter) == Fail(AttributeError)
    ensures ZedBrace("Custom Head", carrierType, diameter) == NoLine
  {
    assert AugerParts.FlightBraceExcluded[8] == "Custom Head";
  }
}
