/**
 * Lead, carrier and coupling flights of a CFA auger (product_bom.py,
 * `_get_cfa_flight_combination`, `_get_cfa_lead_ca_co_flights`,
 * `_check_flight_validation` and the three flight-quantity functions).
 *
 * Each flight name is assembled from the flight attributes; a flight must
 * exist in the catalogue (the predicate `inCatalogue`) unless the Override
 * BOM attribute is set. The carrier and coupling quantities are computed
 * from the pitch and turns read back out of the assembled names.
 */
module CfaFlights {
  import opened BomWrappers
  import opened PyNum
  import opened Bom
  import opened PyText
  import opened PyRegex
  import AugerFlights
  import V2 = AugerPartsV2
  import CfaCoupling

  // ---------------------------------------------------------------- flight names

  /**
   * `_parse_flight_values`: the `P` and `T` numbers (0 when absent) and the
   * `R` turns, kept only when above one.
   */
  function FlightValuesOf(pt: string): (r: V2.FlightValues)
    ensures r.pitch == AugerFlights.OrZero(SearchNumber(pt, "P"))
    ensures r.thickness == AugerFlights.OrZero(SearchNumber(pt, "T"))
    ensures r.turns.Some? ==> Value(r.turns.value) > 1.0
    ensures r.turns.None? <==>
      SearchDecimal(pt, "R").None? || Value(TokenDecimal(SearchDecimal(pt, "R").value)) <= 1.0
  {
    var turns := match SearchDecimal(pt, "R")
      case Some(t) => if Value(TokenDecimal(t)) > 1.0 then Some(TokenDecimal(t)) else None
      case None => None;
    V2.FlightValues(AugerFlights.OrZero(SearchNumber(pt, "P")), AugerFlights.OrZero(SearchNumber(pt, "T")), turns)
  }

  /**
   * The ID field: for a coupling flight the tube's `ID` number when it has
   * one, otherwise the tube's `OD` number, otherwise nothing after "ID".
   */
  function IdField(coupling: bool, tube: string): (r: string)
    ensures |r| >= 2 && r[..2] == "ID" && AllDigits(r[2..])
    ensures coupling && SearchNumber(tube, "ID").Some? ==> r == "ID" + NatText(SearchNumber(tube, "ID").value)
    ensures !(coupling && SearchNumber(tube, "ID").Some?) && SearchNumber(tube, "OD").Some? ==>
      r == "ID" + NatText(SearchNumber(tube, "OD").value)
    ensures !(coupling && SearchNumber(tube, "ID").Some?) && SearchNumber(tube, "OD").None? ==> r == "ID"
  {
    match (if coupling then SearchNumber(tube, "ID") else None)
    case Some(n) => "ID" + NatText(n)
    case None =>
      match SearchNumber(tube, "OD")
      case Some(n) => "ID" + NatText(n)
      case None => "ID"
  }

  /** The seven space-separated fields of a CFA flight name. */
  function FlightFields(od: nat, id: string, v: V2.FlightValues, rotation: string): (f: seq<string>)
    ensures |f| == 7 && f[0] == "Flight -" && f[2] == id && f[3] == "P" + NatText(v.pitch)
  {
    ["Flight -",
     "OD" + NatText(od),
     id,
     "P" + NatText(v.pitch),
     "T" + NatText(v.thickness),
     if rotation == "Right Hand Rotation" then "RH" else "LH",
     if v.turns.Some? then "R" + FloatText(v.turns.value) else ""]
  }

  /**
   * `_get_cfa_flight_combination`: "" when neither attribute is set, or for
   * a coupling flight without a coupling ID; otherwise "Flight - OD<od>
   * ID<id> P<p> T<t> RH|LH R<turns>" (the last field empty for one turn or
   * fewer). The OD attribute must hold `OD<n>` (`AttributeError`).
   */
  function FlightCombination(flightOd: string, flightPt: string, coupling: bool, tube: string, rotation: string)
    : (r: Result<string>)
    ensures flightOd == "" && flightPt == "" ==> r == Ok("")
    ensures coupling && tube == "" ==> r == Ok("")
    ensures r.Fail? <==>
      (flightOd != "" || flightPt != "") && !(coupling && tube == "") && SearchNumber(flightOd, "OD").None?
    ensures r.Fail? ==> r.error == AttributeError
    ensures r.Ok? && r.value != "" ==>
      r.value == Join(FlightFields(SearchNumber(flightOd, "OD").value, IdField(coupling, tube),
                                   FlightValuesOf(flightPt), rotation), " ")
  {
    if flightPt == "" && flightOd == "" then Ok("")
    else if coupling && tube == "" then Ok("")
    else
      match SearchNumber(flightOd, "OD")
      case None => Fail(AttributeError)
      case Some(od) =>
        var f := FlightFields(od, IdField(coupling, tube), FlightValuesOf(flightPt), rotation);
        AugerFlights.JoinSeven(f);
        Ok(Join(f, " "))
  }

  /** A joined CFA flight name is never empty. */
  lemma FlightNameNonEmpty(od: nat, id: string, v: V2.FlightValues, rotation: string)
    ensures Join(FlightFields(od, id, v, rotation), " ") != ""
  {
    var f := FlightFields(od, id, v, rotation);
    AugerFlights.JoinSeven(f);
    assert |Join(f, " ")| >= |f[0]|;
  }

  /**
   * The pitch written into a flight name is the pitch `_get_pitch` reads
   * back out of it: the quantities see the pitch of the attribute.
   */
  lemma FlightPitchReadBack(flightOd: string, flightPt: string, coupling: bool, tube: string, rotation: string)
    requires FlightCombination(flightOd, flightPt, coupling, tube, rotation).Ok?
    requires FlightCombination(flightOd, flightPt, coupling, tube, rotation).value != ""
    ensures SearchNumber(FlightCombination(flightOd, flightPt, coupling, tube, rotation).value, "P")
         == Some(FlightValuesOf(flightPt).pitch)
  {
    FieldsPitch(SearchNumber(flightOd, "OD").value, IdField(coupling, tube), FlightValuesOf(flightPt), rotation);
  }

  /** The pitch field is the first `P` number of the joined fields. */
  lemma FieldsPitch(od: nat, id: string, v: V2.FlightValues, rotation: string)
    requires |id| >= 2 && id[..2] == "ID" && AllDigits(id[2..])
    ensures SearchNumber(Join(FlightFields(od, id, v, rotation), " "), "P") == Some(v.pitch)
  {
    var f := FlightFields(od, id, v, rotation);
    AugerFlights.JoinSeven(f);
    var head := f[0] + " " + f[1] + " " + f[2] + " ";
    assert 'P' !in NatText(od) by { assert AllDigits(NatText(od)); }
    assert 'P' !in id by { assert id == id[..2] + id[2..]; assert AllDigits(id[2..]); }
    assert 'P' !in head;
    AugerFlights.PitchReadBack(head, v.pitch, f[4] + " " + (f[5] + " " + f[6]));
  }

  // ---------------------------------------------------------------- validation

  /** The text `_check_flight_validation` names: the first missing combination, in its listed order. */
  function MissingFlights(lead: bool, carrier: bool, coupling: bool): (r: Option<string>)
    ensures r.None? <==> lead && carrier && coupling
    ensures !lead && !carrier ==> r == Some("Lead & Carrier Flights")
    ensures !lead && carrier && !coupling ==> r == Some("Lead & Coupling Flights")
    ensures lead && !carrier && !coupling ==> r == Some("Carrier & Coupling Flights")
    ensures !lead && carrier && coupling ==> r == Some("Lead Flight")
    ensures lead && !carrier && coupling ==> r == Some("Carrier Flight")
    ensures lead && carrier && !coupling ==> r == Some("Coupling Flight")
  {
    if !lead && !carrier then Some("Lead & Carrier Flights")
    else if !lead && !coupling then Some("Lead & Coupling Flights")
    else if !carrier && !coupling then Some("Carrier & Coupling Flights")
    else if !lead then Some("Lead Flight")
    else if !carrier then Some("Carrier Flight")
    else if !coupling then Some("Coupling Flight")
    else None
  }

  /** The message of the validation error for a missing combination. */
  function MissingMessage(flights: string): string
  {
    "Oops! " + flights + " is not available. Please review the selection or override the BOM."
  }

  /**
   * `_check_flight_validation`: passes when all three flights exist or the
   * Override BOM is set, and otherwise raises a `ValidationError` naming the
   * first missing combination.
   */
  function CheckFlightValidation(lead: bool, carrier: bool, coupling: bool, overrideBom: string): (r: Result<()>)
    ensures r.Ok? <==> (lead && carrier && coupling) || overrideBom != ""
    ensures r.Fail? ==> r.error == ValidationError(MissingMessage(MissingFlights(lead, carrier, coupling).value))
  {
    match MissingFlights(lead, carrier, coupling)
    case None => Ok(())
    case Some(flights) => if overrideBom != "" then Ok(()) else Fail(ValidationError(MissingMessage(flights)))
  }

  /** When all three flights are missing the message names only the lead and carrier flights. */
  lemma AllMissingNamesTwo()
    ensures CheckFlightValidation(false, false, false, "") == Fail(ValidationError(MissingMessage("Lead & Carrier Flights")))
  {
  }

  // ---------------------------------------------------------------- quantities

  const SingleLeadTypes: seq<string> := ["Clay/Shale", "Blade", "Single Cut"]

  /** `_get_cfa_lead_flight_qty`: one lead flight for a Lead of the three single-flight types, two otherwise. */
  function LeadFlightQty(cfaType: string, leadType: string): (r: nat)
    ensures r == 1 <==> cfaType == "Lead" && leadType in SingleLeadTypes
    ensures r == 2 <==> !(cfaType == "Lead" && leadType in SingleLeadTypes)
  {
    if cfaType == "Lead" && leadType in SingleLeadTypes then 1 else 2
  }

  /** The carrier flight denominator: the carrier pitch in metres times its turns. */
  function CarrierSpan(carrierPitch: nat, carrierTurns: real): real
  {
    carrierPitch as real / 1000.0 * carrierTurns
  }

  /**
   * The unrounded carrier count: the length left above the lead flights
   * (the whole length on an Intermediate) over the carrier span, less the
   * coupling flights.
   */
  function CarrierRaw(cfaType: string, leadPitch: nat, leadTurns: real, carrierPitch: nat, carrierTurns: real,
                      couplingQty: real, lengthM: real): real
    requires CarrierSpan(carrierPitch, carrierTurns) != 0.0
  {
    var span := CarrierSpan(carrierPitch, carrierTurns);
    if cfaType == "Lead" then (lengthM - leadPitch as real / 1000.0 * leadTurns) / span - couplingQty
    else lengthM / span - couplingQty
  }

  /**
   * `_get_cfa_caflight_qty`: 0 for a type other than Lead or Intermediate
   * and for a zero span; otherwise the raw count rounded up to a half flight.
   */
  function CarrierFlightQty(cfaType: string, leadPitch: nat, leadTurns: real, carrierPitch: nat, carrierTurns: real,
                            couplingQty: real, lengthM: real): (r: real)
    ensures cfaType != "Lead" && cfaType != "Intermediate" ==> r == 0.0
    ensures CarrierSpan(carrierPitch, carrierTurns) == 0.0 ==> r == 0.0
    ensures (cfaType == "Lead" || cfaType == "Intermediate") && CarrierSpan(carrierPitch, carrierTurns) != 0.0 ==>
      var raw := CarrierRaw(cfaType, leadPitch, leadTurns, carrierPitch, carrierTurns, couplingQty, lengthM);
      IsHalfStep(r) && raw <= r < raw + 0.5
  {
    if (cfaType == "Lead" || cfaType == "Intermediate") && CarrierSpan(carrierPitch, carrierTurns) != 0.0 then
      CeilHalf(CarrierRaw(cfaType, leadPitch, leadTurns, carrierPitch, carrierTurns, couplingQty, lengthM))
    else 0.0
  }

  /** No half step between the raw count and the carrier quantity: it is the least that covers the length. */
  lemma CarrierFlightQtyIsLeast(cfaType: string, leadPitch: nat, leadTurns: real, carrierPitch: nat,
                                carrierTurns: real, couplingQty: real, lengthM: real, m: real)
    requires cfaType == "Lead" || cfaType == "Intermediate"
    requires CarrierSpan(carrierPitch, carrierTurns) != 0.0
    requires IsHalfStep(m) && CarrierRaw(cfaType, leadPitch, leadTurns, carrierPitch, carrierTurns, couplingQty, lengthM) <= m
    ensures CarrierFlightQty(cfaType, leadPitch, leadTurns, carrierPitch, carrierTurns, couplingQty, lengthM) <= m
  {
    CeilHalfIsLeast(CarrierRaw(cfaType, leadPitch, leadTurns, carrierPitch, carrierTurns, couplingQty, lengthM), m);
  }

  /** With a positive span, a lead never needs more carrier flights than an intermediate of the same length. */
  lemma LeadNeedsNoMoreCarriers(leadPitch: nat, leadTurns: real, carrierPitch: nat, carrierTurns: real,
                                couplingQty: real, lengthM: real)
    requires CarrierSpan(carrierPitch, carrierTurns) > 0.0 && leadTurns >= 0.0
    ensures CarrierFlightQty("Lead", leadPitch, leadTurns, carrierPitch, carrierTurns, couplingQty, lengthM)
         <= CarrierFlightQty("Intermediate", leadPitch, leadTurns, carrierPitch, carrierTurns, couplingQty, lengthM)
  {
    var span := CarrierSpan(carrierPitch, carrierTurns);
    var lead := CarrierRaw("Lead", leadPitch, leadTurns, carrierPitch, carrierTurns, couplingQty, lengthM);
    var inter := CarrierRaw("Intermediate", leadPitch, leadTurns, carrierPitch, carrierTurns, couplingQty, lengthM);
    var used := leadPitch as real / 1000.0 * leadTurns;
    assert used >= 0.0;
    assert (lengthM - used) / span <= lengthM / span;
    assert lead <= inter;
    CeilHalfIsLeast(lead, CeilHalf(inter));
  }

  /**
   * `_get_cfa_coflight_qty`: 0 without a coupling flight; otherwise the
   * female coupling's height over the coupling pitch times turns, rounded
   * down to a half flight (`ZeroDivisionError` for a zero product).
   */
  function CouplingFlightQty(femaleHeight: real, couplingPitch: nat, couplingTurns: real, couplingFlight: string)
    : (r: Result<real>)
    ensures couplingFlight == "" ==> r == Ok(0.0)
    ensures couplingFlight != "" ==> (r.Fail? <==> couplingPitch as real * couplingTurns == 0.0)
    ensures r.Fail? ==> r.error == ZeroDivisionError
    ensures couplingFlight != "" && r.Ok? ==>
      var raw := femaleHeight / (couplingPitch as real * couplingTurns);
      IsHalfStep(r.value) && raw - 0.5 < r.value <= raw
  {
    if couplingFlight == "" then Ok(0.0)
    else if couplingPitch as real * couplingTurns == 0.0 then Fail(ZeroDivisionError)
    else Ok(FloorHalf(femaleHeight / (couplingPitch as real * couplingTurns)))
  }

  /** No half step between the coupling quantity and the raw count: it is the most that fits in the coupling. */
  lemma CouplingFlightQtyIsGreatest(femaleHeight: real, couplingPitch: nat, couplingTurns: real, couplingFlight: string,
                                    m: real)
    requires couplingFlight != "" && couplingPitch as real * couplingTurns != 0.0
    requires IsHalfStep(m) && m <= femaleHeight / (couplingPitch as real * couplingTurns)
    ensures m <= CouplingFlightQty(femaleHeight, couplingPitch, couplingTurns, couplingFlight).value
  {
    FloorHalfIsGreatest(femaleHeight / (couplingPitch as real * couplingTurns), m);
  }

  /** The pitch and turns of the three names: `_get_pitch` of each when any is set, all zero otherwise. */
  datatype Pitches = Pitches(lead: (nat, real), carrier: (nat, real), coupling: (nat, real))

  function PitchesOf(lead: string, carrier: string, coupling: string): (r: Pitches)
    ensures lead == "" && carrier == "" && coupling == "" ==> r == Pitches((0, 0.0), (0, 0.0), (0, 0.0))
    ensures lead != "" || carrier != "" || coupling != "" ==>
      r == Pitches(V2.PitchTurns(lead), V2.PitchTurns(carrier), V2.PitchTurns(coupling))
  {
    if lead != "" || carrier != "" || coupling != "" then
      Pitches(V2.PitchTurns(lead), V2.PitchTurns(carrier), V2.PitchTurns(coupling))
    else Pitches((0, 0.0), (0, 0.0), (0, 0.0))
  }

  /** The female coupling's height in mm, 0 for an unlisted drive head. */
  function FemaleHeightMm(driveHead: string): (r: real)
    ensures CfaCoupling.FemaleCoupling(driveHead).None? ==> r == 0.0
    ensures CfaCoupling.FemaleCoupling(driveHead).Some? ==> r == CfaCoupling.FemaleCoupling(driveHead).value.height
  {
    match CfaCoupling.FemaleCoupling(driveHead)
    case Some(c) => c.height
    case None => 0.0
  }

  /**
   * `_get_cfa_carrier_coupling_flight_qty`: the coupling quantity from the
   * female coupling's height, then the carrier quantity less it; `lengthM`
   * is the number the Length attribute gives in metres.
   */
  function CarrierCouplingQty(cfaType: string, lead: string, carrier: string, coupling: string, lengthM: real,
                              driveHead: string): (r: Result<(real, real)>)
    ensures var p := PitchesOf(lead, carrier, coupling);
      var co := CouplingFlightQty(FemaleHeightMm(driveHead), p.coupling.0, p.coupling.1, coupling);
      (r.Fail? <==> co.Fail?)
      && (r.Ok? ==> (r.value.1 == co.value
          && r.value.0 == CarrierFlightQty(cfaType, p.lead.0, p.lead.1, p.carrier.0, p.carrier.1, co.value, lengthM)))
    ensures r.Fail? ==> r.error == ZeroDivisionError
  {
    var p := PitchesOf(lead, carrier, coupling);
    match CouplingFlightQty(FemaleHeightMm(driveHead), p.coupling.0, p.coupling.1, coupling)
    case Fail(e) => Fail(e)
    case Ok(co) => Ok((CarrierFlightQty(cfaType, p.lead.0, p.lead.1, p.carrier.0, p.carrier.1, co, lengthM), co))
  }

  // ---------------------------------------------------------------- the flight lines

  /** The flight attributes of a CFA auger. */
  datatype FlightAttrs = FlightAttrs(leadOd: string, leadPt: string, carrierOd: string, carrierPt: string,
                                     couplingId: string, rotation: string)

  /** A coupling flight is assembled whenever the lead flight it copies is: it never raises on its own. */
  lemma CouplingFollowsLead(a: FlightAttrs, centreTube: string)
    requires FlightCombination(a.leadOd, a.leadPt, false, centreTube, a.rotation).Ok?
    ensures FlightCombination(a.leadOd, a.leadPt, true, a.couplingId, a.rotation).Ok?
  {
  }

  /** The three names: the lead and carrier flights on the centre tube, the coupling flight on the coupling ID. */
  function FlightNames(a: FlightAttrs, centreTube: string): (r: Result<(string, string, string)>)
    ensures var l := FlightCombination(a.leadOd, a.leadPt, false, centreTube, a.rotation);
      var c := FlightCombination(a.carrierOd, a.carrierPt, false, centreTube, a.rotation);
      var k := FlightCombination(a.leadOd, a.leadPt, true, a.couplingId, a.rotation);
      (r.Ok? <==> l.Ok? && c.Ok?)
      && (r.Ok? ==> k.Ok? && r.value == (l.value, c.value, k.value))
    ensures r.Fail? ==> r.error == AttributeError
  {
    var l := FlightCombination(a.leadOd, a.leadPt, false, centreTube, a.rotation);
    var c := FlightCombination(a.carrierOd, a.carrierPt, false, centreTube, a.rotation);
    if l.Fail? then Fail(l.error)
    else if c.Fail? then Fail(c.error)
    else
      CouplingFollowsLead(a, centreTube);
      Ok((l.value, c.value, FlightCombination(a.leadOd, a.leadPt, true, a.couplingId, a.rotation).value))
  }

  /** The flight lines once the three names are assembled: validation, then quantities, then the named lines. */
  function FlightLines(cfaType: string, leadType: string, l: string, c: string, k: string, lengthM: real,
                       driveHead: string, overrideBom: string, inCatalogue: string -> bool): (r: Result<seq<Line>>)
    ensures var check := CheckFlightValidation(inCatalogue(l), inCatalogue(c), inCatalogue(k), overrideBom);
      var qty := CarrierCouplingQty(cfaType, l, c, k, lengthM, driveHead);
      (check.Fail? ==> r == Fail(check.error))
      && (check.Ok? && qty.Fail? ==> r == Fail(ZeroDivisionError))
      && (check.Ok? && qty.Ok? && overrideBom == "" ==>
            r == Ok(KeepNamed([Line(l, LeadFlightQty(cfaType, leadType) as real),
                               Line(c, Abs(qty.value.0)), Line(k, Abs(qty.value.1))])))
    ensures r.Ok? && overrideBom != "" ==> r.value == []
    ensures r.Ok? ==> forall line :: line in r.value ==> Named(line) && line.qty >= 0.0 && inCatalogue(line.name)
  {
    match CheckFlightValidation(inCatalogue(l), inCatalogue(c), inCatalogue(k), overrideBom)
    case Fail(e) => Fail(e)
    case Ok(_) =>
      match CarrierCouplingQty(cfaType, l, c, k, lengthM, driveHead)
      case Fail(e) => Fail(e)
      case Ok((ca, co)) =>
        if overrideBom != "" then Ok([])
        else
          var named := NamedFlights(l, c, k, LeadFlightQty(cfaType, leadType), ca, co);
          assert inCatalogue(l) && inCatalogue(c) && inCatalogue(k);
          InCatalogue(named, l, c, k, inCatalogue);
          Ok(named)
  }

  /** Lines named after three flights in the catalogue are all in the catalogue. */
  lemma InCatalogue(lines: seq<Line>, l: string, c: string, k: string, inCatalogue: string -> bool)
    requires inCatalogue(l) && inCatalogue(c) && inCatalogue(k)
    requires forall line :: line in lines ==> line.name == l || line.name == c || line.name == k
    ensures forall line :: line in lines ==> inCatalogue(line.name)
  {
  }

  /** The lead, carrier and coupling lines that have a name, with the absolute carrier and coupling quantities. */
  function NamedFlights(l: string, c: string, k: string, leadQty: nat, ca: real, co: real): (r: seq<Line>)
    ensures r == KeepNamed([Line(l, leadQty as real), Line(c, Abs(ca)), Line(k, Abs(co))])
    ensures forall line :: line in r ==> Named(line) && line.qty >= 0.0 && (line.name == l || line.name == c || line.name == k)
  {
    var lines := [Line(l, leadQty as real), Line(c, Abs(ca)), Line(k, Abs(co))];
    assert forall line :: line in lines ==> line.qty >= 0.0 && (line.name == l || line.name == c || line.name == k);
    KeepNamed(lines)
  }

  /**
   * `_get_cfa_lead_ca_co_flights`: the three names are assembled, each must
   * exist unless the Override BOM is set, the quantities are computed, and
   * the named flights are returned with the lead quantity and the absolute
   * carrier and coupling quantities. With the Override BOM set the list is
   * empty, though a zero coupling pitch still raises.
   */
  function LeadCarrierCouplingFlights(cfaType: string, leadType: string, centreTube: string, a: FlightAttrs,
                                      lengthM: real, driveHead: string, overrideBom: string,
                                      inCatalogue: string -> bool): (r: Result<seq<Line>>)
    ensures FlightNames(a, centreTube).Fail? ==> r == Fail(AttributeError)
    ensures FlightNames(a, centreTube).Ok? ==>
      r == FlightLines(cfaType, leadType, FlightNames(a, centreTube).value.0, FlightNames(a, centreTube).value.1,
                       FlightNames(a, centreTube).value.2, lengthM, driveHead, overrideBom, inCatalogue)
    ensures r.Ok? && overrideBom != "" ==> r.value == []
    ensures r.Ok? ==> forall line :: line in r.value ==> Named(line) && line.qty >= 0.0 && inCatalogue(line.name)
  {
    match FlightNames(a, centreTube)
    case Fail(e) => Fail(e)
    case Ok((l, c, k)) => FlightLines(cfaType, leadType, l, c, k, lengthM, driveHead, overrideBom, inCatalogue)
  }
}
