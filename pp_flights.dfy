/**
 * Lead and carrier flights of a bored-pile auger (product_product.py).
 *
 * A flight is named from the auger diameter, the bore that suits the centre
 * tube and the pitch, thickness and turns read from the flight attribute;
 * the carrier quantity is then computed from the pitch and turns read back
 * out of the two names. Whether a name exists in the catalogue is the
 * predicate `inCatalogue`; the set `flightIds` holds the `ID` numbers of the
 * catalogue's flights.
 */
module AugerFlights {
  import opened BomWrappers
  import opened PyNum
  import opened Bom
  import opened PyText
  import opened PyRegex
  import AugerTeeth

  const AugerTypes: seq<string> := ["Dual Rock", "Taper Rock", "ZED 25mm", "ZED 32mm", "ZED 40mm", "ZED 50mm"]

  /** The number of carrier flights before rounding, for a non-zero carrier pitch times turns. */
  function CarrierRaw(auger: string, length: int, leadPitch: int, leadTurns: real, carrierPitch: int, carrierTurns: real): real
    requires carrierPitch as real * carrierTurns != 0.0
  {
    var den := carrierPitch as real * carrierTurns;
    if auger in AugerTypes then (length as real - leadPitch as real * leadTurns) / den
    else if auger in ["Clay/Shale", "Blade"] then (length as real - leadPitch as real * leadTurns) / den * 2.0
    else if auger == "Triad Rock" then (length as real - leadPitch as real * leadTurns * 0.4) / den
    else 0.0
  }

  /**
   * `_get_cflight_qty`: 0 when the carrier pitch times turns is 0 (nothing
   * is divided) or the auger type is not listed; otherwise the raw count
   * rounded up to a whole or half flight.
   */
  function CarrierFlightQty(auger: string, length: int, leadPitch: int, leadTurns: real, carrierPitch: int, carrierTurns: real): (r: real)
    ensures carrierPitch as real * carrierTurns == 0.0 ==> r == 0.0
    ensures carrierPitch as real * carrierTurns != 0.0 ==>
      IsHalfStep(r)
      && CarrierRaw(auger, length, leadPitch, leadTurns, carrierPitch, carrierTurns) <= r
      && r < CarrierRaw(auger, length, leadPitch, leadTurns, carrierPitch, carrierTurns) + 0.5
    ensures auger !in AugerTypes && auger !in ["Clay/Shale", "Blade", "Triad Rock"] ==> r == 0.0
  {
    if carrierPitch as real * carrierTurns == 0.0 then 0.0
    else CeilHalf(CarrierRaw(auger, length, leadPitch, leadTurns, carrierPitch, carrierTurns))
  }

  /** No whole or half flight lies between the raw count and `_get_cflight_qty`. */
  lemma CarrierFlightQtyIsLeast(auger: string, length: int, leadPitch: int, leadTurns: real,
                                carrierPitch: int, carrierTurns: real, m: real)
    requires carrierPitch as real * carrierTurns != 0.0
    requires IsHalfStep(m) && CarrierRaw(auger, length, leadPitch, leadTurns, carrierPitch, carrierTurns) <= m
    ensures CarrierFlightQty(auger, length, leadPitch, leadTurns, carrierPitch, carrierTurns) <= m
  {
    CeilHalfIsLeast(CarrierRaw(auger, length, leadPitch, leadTurns, carrierPitch, carrierTurns), m);
  }

  function OrZero(n: Option<nat>): nat
  {
    if n.Some? then n.value else 0
  }

  /** `_get_pitch`: the `P` number of a flight name (0 without one) and its `R` turns (1 without them). */
  function PitchTurns(name: string): (nat, real)
  {
    (OrZero(SearchNumber(name, "P")),
     match SearchDecimal(name, "R")
     case Some(t) => Value(TokenDecimal(t))
     case None => 1.0)
  }

  /**
   * `_get_carrier_flight_qty`: the carrier quantity from the pitches and
   * turns of the two flight names, 0 when both names are empty. The flighted
   * length must hold a number, or indexing the empty match list raises.
   */
  function CarrierQtyOfNames(auger: string, flightedLength: string, lead: string, carrier: string): (r: Result<real>)
    ensures r.Fail? <==> FirstNumber(flightedLength).None?
    ensures r.Fail? ==> r.error == IndexError
    ensures r.Ok? && lead == "" && carrier == "" ==> r.value == 0.0
    ensures r.Ok? && (lead != "" || carrier != "") ==>
      r.value == CarrierFlightQty(auger, FirstNumber(flightedLength).value,
                                  PitchTurns(lead).0, PitchTurns(lead).1, PitchTurns(carrier).0, PitchTurns(carrier).1)
  {
    match FirstNumber(flightedLength)
    case None => Fail(IndexError)
    case Some(length) =>
      if lead == "" && carrier == "" then Ok(0.0)
      else
        var (lp, lt) := PitchTurns(lead);
        var (cp, ct) := PitchTurns(carrier);
        Ok(CarrierFlightQty(auger, length, lp, lt, cp, ct))
  }

  /** The pitch, thickness and (only when above 1) turns read from a flight attribute. */
  datatype FlightSpec = FlightSpec(pitch: nat, thickness: nat, turns: Option<Decimal>)

  /** `_parse_flight_values` */
  function ParseFlight(pt: string): (r: FlightSpec)
    ensures r.turns.Some? ==> Value(r.turns.value) > 1.0
  {
    var turns := match SearchDecimal(pt, "R")
      case Some(t) => if Value(TokenDecimal(t)) > 1.0 then Some(TokenDecimal(t)) else None
      case None => None;
    FlightSpec(OrZero(SearchNumber(pt, "P")), OrZero(SearchNumber(pt, "T")), turns)
  }

  /** The first of `base + t .. base + 5` among the catalogue's flight IDs. */
  function FlightIdFrom(base: nat, t: nat, ids: set<nat>): (r: Option<nat>)
    requires t <= 6
    ensures r.Some? ==> r.value in ids && base + t <= r.value <= base + 5
    ensures r.Some? ==> forall w :: w in ids && base + t <= w <= base + 5 ==> r.value <= w
    ensures r.None? ==> forall w :: w in ids ==> !(base + t <= w <= base + 5)
    decreases 6 - t
  {
    if t > 5 then None
    else if base + t in ids then Some(base + t)
    else FlightIdFrom(base, t + 1, ids)
  }

  /** `_find_flight_id` over the catalogue's flight IDs: the smallest within 5mm above the bore. */
  function FlightId(base: nat, ids: set<nat>): (r: Option<nat>)
    ensures r.Some? ==> r.value in ids && base <= r.value <= base + 5
    ensures r.Some? ==> forall w :: w in ids && base <= w <= base + 5 ==> r.value <= w
    ensures r.None? <==> forall w :: w in ids ==> !(base <= w <= base + 5)
  {
    FlightIdFrom(base, 0, ids)
  }

  /** The bore a flight needs for a centre tube: the `- <digits>` number, else the `OD` number, else 0. */
  function TubeBore(tube: string): nat
  {
    match SearchDashNumber(tube)
    case Some(n) => n
    case None => OrZero(SearchNumber(tube, "OD"))
  }

  /** The seven space-separated fields of a flight name. */
  function FlightFields(pt: string, diameter: int, tube: string, rotation: string, flightIds: set<nat>): seq<string>
  {
    var spec := ParseFlight(pt);
    var id := FlightId(TubeBore(tube), flightIds);
    ["Flight -",
     "OD" + IntText(diameter - AugerTeeth.Clearance(diameter)),
     "ID" + (if id.Some? then NatText(id.value) else "None"),
     "P" + NatText(spec.pitch),
     "T" + NatText(spec.thickness),
     if rotation == "Right Hand Rotation" then "RH" else "LH",
     if spec.turns.Some? then "R" + FloatText(spec.turns.value) else ""]
  }

  /**
   * `_get_flight_combination`: "" when neither the pitch nor the OD attribute
   * is set, otherwise "Flight - OD<d> ID<id> P<p> T<t> RH|LH R<turns>". The
   * OD attribute itself does not enter the name.
   */
  function FlightName(pt: string, od: string, diameter: int, tube: string, rotation: string, flightIds: set<nat>): (r: string)
    ensures r == "" <==> pt == "" && od == ""
    ensures r != "" ==> |r| >= 9 && r[..9] == "Flight - "
  {
    if pt == "" && od == "" then ""
    else
      var fields := FlightFields(pt, diameter, tube, rotation, flightIds);
      var r := Join(fields, " ");
      assert r == "Flight -" + " " + Join(fields[1..], " ");
      assert r[..9] == "Flight - ";
      r
  }

  lemma IntTextChars(i: int)
    ensures forall k :: 0 <= k < |IntText(i)| ==> IntText(i)[k] == '-' || IsDigit(IntText(i)[k])
  {
    if i < 0 {
      assert forall k :: 1 <= k < |IntText(i)| ==> IntText(i)[k] == NatText(-i)[k - 1];
    }
  }

  lemma Assoc(a: string, b: string, c: string)
    ensures (a + b) + c == a + (b + c)
  {
  }

  /** The seven fields joined by spaces, grouped as the fields before the pitch and the rest. */
  lemma JoinSeven(f: seq<string>)
    requires |f| == 7
    ensures Join(f, " ") == (f[0] + " " + f[1] + " " + f[2] + " ") + (f[3] + (" " + (f[4] + " " + (f[5] + " " + f[6]))))
  {
    assert f[1..][1..] == f[2..] && f[2..][1..] == f[3..] && f[3..][1..] == f[4..];
    assert f[4..][1..] == f[5..] && f[5..][1..] == f[6..];
    assert f[6..] == [f[6]];
    assert Join(f[5..], " ") == f[5] + " " + f[6];
    var j4 := f[4] + " " + (f[5] + " " + f[6]);
    assert Join(f[4..], " ") == j4;
    var j3 := f[3] + " " + j4;
    assert Join(f[3..], " ") == j3;
    assert Join(f[2..], " ") == f[2] + " " + j3;
    var j1 := f[1] + " " + (f[2] + " " + j3);
    assert Join(f[1..], " ") == j1;
    assert Join(f, " ") == f[0] + " " + j1;
    Assoc(f[3], " ", j4);
    var h2 := f[2] + " ";
    Assoc(f[2], " ", j3);
    var h1 := f[1] + " ";
    Assoc(f[1], " ", h2 + j3);
    Assoc(h1, h2, j3);
    var h0 := f[0] + " ";
    Assoc(f[0], " ", (h1 + h2) + j3);
    Assoc(h0, h1 + h2, j3);
    Assoc(h0, h1, h2);
    assert h0 + h1 + h2 == f[0] + " " + f[1] + " " + f[2] + " ";
  }

  /** The turns after the rotation field are read back from the rotation onwards. */
  lemma TurnsReadBack(rotation: string, turns: Option<Decimal>)
    requires rotation == "RH" || rotation == "LH"
    ensures var tail := if turns.Some? then "R" + FloatText(turns.value) else "";
      SearchDecimal(rotation + " " + tail, "R") ==
        if turns.Some? then Some(Token(WholeText(turns.value), FracText(turns.value))) else None
  {
    var tail := if turns.Some? then "R" + FloatText(turns.value) else "";
    var s := rotation + " " + tail;
    if rotation == "RH" {
      assert s[0] == 'R' && !IsDigit(s[1]);
      assert !DecimalAt(s, "R");
      assert s[1..] == "H " + tail;
      SearchSkip("H ", tail, "R");
    } else {
      assert s == "LH " + tail;
      SearchSkip("LH ", tail, "R");
    }
    if turns.Some? {
      var d := turns.value;
      var w, q := WholeText(d), FracText(d);
      assert FloatText(d) == w + "." + q;
      Assoc(w, ".", q);
      assert q + "" == q;
      assert tail == "R" + (w + ("." + (q + "")));
      SearchDecimalWritten("R", w, q, "");
    } else {
      assert tail == "";
    }
  }

  /** The fields before the pitch hold no `P` and no `R`. */
  lemma HeadFree(x: int, id: string)
    requires AllDigits(id) || id == "None"
    ensures var h := "Flight -" + " " + ("OD" + IntText(x)) + " " + ("ID" + id) + " ";
      'P' !in h && 'R' !in h
  {
    IntTextChars(x);
    assert 'P' !in IntText(x) && 'R' !in IntText(x);
    assert 'P' !in id && 'R' !in id;
  }

  lemma Regroup(a: string, b: string, t: string)
    ensures a + (" " + (b + " " + t)) == (a + " " + b + " ") + t
  {
    Assoc(" ", b + " ", t);
    Assoc(a, " " + (b + " "), t);
    Assoc(a, " ", b + " ");
    Assoc(a + " ", b, " ");
  }

  /** The pitch written after `P`/`R`-free fields is the first `P` number. */
  lemma PitchReadBack(head: string, pitch: nat, rest: string)
    requires 'P' !in head
    ensures SearchNumber(head + (("P" + NatText(pitch)) + (" " + rest)), "P") == Some(pitch)
  {
    SearchSkip(head, ("P" + NatText(pitch)) + (" " + rest), "P");
    SearchNumberWritten("P", pitch, " " + rest);
  }

  /** The turns after `R`-free fields, the pitch and the thickness are the first `R` decimal. */
  lemma TurnsAfterFields(head: string, f3: string, f4: string, rotation: string, turns: Option<Decimal>)
    requires 'R' !in head && 'R' !in f3 && 'R' !in f4
    requires rotation == "RH" || rotation == "LH"
    ensures var tail := rotation + " " + (if turns.Some? then "R" + FloatText(turns.value) else "");
      SearchDecimal(head + (f3 + (" " + (f4 + " " + tail))), "R") ==
        if turns.Some? then Some(Token(WholeText(turns.value), FracText(turns.value))) else None
  {
    var tail := rotation + " " + (if turns.Some? then "R" + FloatText(turns.value) else "");
    SearchSkip(head, f3 + (" " + (f4 + " " + tail)), "R");
    Regroup(f3, f4, tail);
    assert 'R' !in f3 + " " + f4 + " ";
    SearchSkip(f3 + " " + f4 + " ", tail, "R");
    TurnsReadBack(rotation, turns);
  }

  /** A name made of `P`/`R`-free fields, the pitch, a thickness, the rotation and the turns reads back its pitch and turns. */
  lemma NameReadBack(head: string, pitch: nat, thickness: nat, rotation: string, turns: Option<Decimal>)
    requires 'P' !in head && 'R' !in head
    requires rotation == "RH" || rotation == "LH"
    ensures var tail := rotation + " " + (if turns.Some? then "R" + FloatText(turns.value) else "");
      var rest := ("T" + NatText(thickness)) + " " + tail;
      PitchTurns(head + (("P" + NatText(pitch)) + (" " + rest))) ==
        (pitch, if turns.Some? then Value(turns.value) else 1.0)
  {
    var tail := rotation + " " + (if turns.Some? then "R" + FloatText(turns.value) else "");
    var f4 := "T" + NatText(thickness);
    PitchReadBack(head, pitch, f4 + " " + tail);
    assert 'R' !in "P" + NatText(pitch) && 'R' !in f4;
    TurnsAfterFields(head, "P" + NatText(pitch), f4, rotation, turns);
    if turns.Some? {
      TokenValue(Token(WholeText(turns.value), FracText(turns.value)));
      FloatTextValue(turns.value);
    }
  }

  /**
   * Reading the pitch and turns back out of a flight name gives the pitch and
   * turns of the flight attribute it was built from (1 for turns that were
   * left out of the name).
   */
  lemma FlightNameReadBack(pt: string, od: string, diameter: int, tube: string, rotation: string, flightIds: set<nat>)
    requires pt != "" || od != ""
    ensures PitchTurns(FlightName(pt, od, diameter, tube, rotation, flightIds)) ==
      (ParseFlight(pt).pitch, if ParseFlight(pt).turns.Some? then Value(ParseFlight(pt).turns.value) else 1.0)
  {
    var f := FlightFields(pt, diameter, tube, rotation, flightIds);
    var spec := ParseFlight(pt);
    JoinSeven(f);
    var id := FlightId(TubeBore(tube), flightIds);
    HeadFree(diameter - AugerTeeth.Clearance(diameter), if id.Some? then NatText(id.value) else "None");
    NameReadBack(f[0] + " " + f[1] + " " + f[2] + " ", spec.pitch, spec.thickness, f[5], spec.turns);
  }

  /** `lead_qty`: 3 for a Triad Rock auger over 650mm, 1 for a smaller one, 2 for any other type. */
  function LeadQty(auger: string, diameter: int): (r: int)
    ensures r == 3 <==> auger == "Triad Rock" && diameter > 650
    ensures r == 1 <==> auger == "Triad Rock" && diameter <= 650
    ensures r == 2 <==> auger != "Triad Rock"
  {
    if auger == "Triad Rock" then (if diameter > 650 then 3 else 1) else 2
  }

  /** The flight named in the error message as written: each later check overwrites the earlier one. */
  function MissingFlight(lead: bool, carrier: bool): (r: string)
  {
    var both := if !lead && !carrier then "Lead Flight & Carrier Flights" else "";
    var afterLead := if !lead then "Lead Flight" else both;
    if !carrier then "Carrier Flight" else afterLead
  }

  /** When both flights are missing, the message as written names only the carrier flight. */
  lemma MissingFlightBothExample()
    ensures MissingFlight(false, false) == "Carrier Flight"
  {
  }

  /** The flight named in the error message as evidently intended: one `if`/`elif` chain. */
  function MissingFlightIntended(lead: bool, carrier: bool): (r: string)
    ensures !lead && !carrier ==> r == "Lead Flight & Carrier Flights"
    ensures !lead && carrier ==> r == "Lead Flight"
    ensures lead && !carrier ==> r == "Carrier Flight"
    ensures r == "" <==> lead && carrier
  {
    if !lead && !carrier then "Lead Flight & Carrier Flights"
    else if !lead then "Lead Flight"
    else if !carrier then "Carrier Flight"
    else ""
  }

  /** The messages agree except when both flights are missing. */
  lemma MissingFlightAgree(lead: bool, carrier: bool)
    requires lead || carrier
    ensures MissingFlight(lead, carrier) == MissingFlightIntended(lead, carrier)
  {
  }

  function NotAvailable(flight: string): PyError
  {
    ValidationError("Opss! " + flight + " is not available, please review the selection or Override BOM.")
  }

  /** The lead/carrier flight attributes of an auger selection. */
  datatype FlightChoice = FlightChoice(auger: string, diameter: int, tube: string, leadPitch: string, leadOd: string,
                                       carrierPitch: string, carrierOd: string, rotation: string,
                                       flightedLength: string, overrideBom: string)

  function LeadName(c: FlightChoice, flightIds: set<nat>): string
  {
    FlightName(c.leadPitch, c.leadOd, c.diameter, c.tube, c.rotation, flightIds)
  }

  function CarrierName(c: FlightChoice, flightIds: set<nat>): string
  {
    FlightName(c.carrierPitch, c.carrierOd, c.diameter, c.tube, c.rotation, flightIds)
  }

  /**
   * `_get_lead_or_carrier_flight` as written: `not _lead or not _carrier and
   * not override_bom` binds as `not _lead or (not _carrier and not
   * override_bom)`, so a missing lead flight raises even when the BOM is
   * overridden. Otherwise the lead line and the carrier line, or `(None, 0)`
   * for a missing carrier flight.
   */
  function LeadOrCarrierFlight(c: FlightChoice, flightIds: set<nat>, inCatalogue: string -> bool): (r: Result<seq<Line>>)
    ensures !inCatalogue(LeadName(c, flightIds)) ==>
      r == Fail(NotAvailable(MissingFlight(false, inCatalogue(CarrierName(c, flightIds)))))
    ensures inCatalogue(LeadName(c, flightIds)) && !inCatalogue(CarrierName(c, flightIds)) && c.overrideBom == "" ==>
      r == Fail(NotAvailable("Carrier Flight"))
    ensures r.Ok? ==>
      |r.value| == 2 && r.value[0] == Line(LeadName(c, flightIds), LeadQty(c.auger, c.diameter) as real)
      && (!inCatalogue(CarrierName(c, flightIds)) ==> r.value[1] == NoLine)
    ensures r.Ok? && inCatalogue(CarrierName(c, flightIds)) ==>
      r.value[1].name == CarrierName(c, flightIds)
      && CarrierQtyOfNames(c.auger, c.flightedLength, LeadName(c, flightIds), CarrierName(c, flightIds)) == Ok(r.value[1].qty)
    ensures inCatalogue(LeadName(c, flightIds)) && (inCatalogue(CarrierName(c, flightIds)) || c.overrideBom != "") ==>
      (r.Ok? <==> CarrierQtyOfNames(c.auger, c.flightedLength, LeadName(c, flightIds), CarrierName(c, flightIds)).Ok?)
      && (r.Fail? ==> r.error == CarrierQtyOfNames(c.auger, c.flightedLength, LeadName(c, flightIds), CarrierName(c, flightIds)).error)
  {
    var lead := LeadName(c, flightIds);
    var carrier := CarrierName(c, flightIds);
    var hasLead := inCatalogue(lead);
    var hasCarrier := inCatalogue(carrier);
    if !hasLead || (!hasCarrier && c.overrideBom == "") then Fail(NotAvailable(MissingFlight(hasLead, hasCarrier)))
    else
      match CarrierQtyOfNames(c.auger, c.flightedLength, lead, carrier)
      case Fail(e) => Fail(e)
      case Ok(carrierQty) =>
        Ok([Line(lead, LeadQty(c.auger, c.diameter) as real),
            if hasCarrier then Line(carrier, carrierQty) else NoLine])
  }

  /**
   * `_get_lead_or_carrier_flight` as evidently intended: an overridden BOM
   * never raises, and a missing flight becomes `(None, 0)`.
   */
  function LeadOrCarrierFlightIntended(c: FlightChoice, flightIds: set<nat>, inCatalogue: string -> bool): (r: Result<seq<Line>>)
    ensures c.overrideBom != "" ==> r.Ok? || r == Fail(IndexError)
    ensures c.overrideBom == "" && !(inCatalogue(LeadName(c, flightIds)) && inCatalogue(CarrierName(c, flightIds))) ==>
      r == Fail(NotAvailable(MissingFlightIntended(inCatalogue(LeadName(c, flightIds)), inCatalogue(CarrierName(c, flightIds)))))
    ensures r.Ok? ==> |r.value| == 2
    ensures r.Ok? ==>
      r.value[0] == (if inCatalogue(LeadName(c, flightIds)) then Line(LeadName(c, flightIds), LeadQty(c.auger, c.diameter) as real) else NoLine)
    ensures r.Ok? && !inCatalogue(CarrierName(c, flightIds)) ==> r.value[1] == NoLine
    ensures r.Ok? && inCatalogue(CarrierName(c, flightIds)) ==>
      r.value[1].name == CarrierName(c, flightIds)
      && CarrierQtyOfNames(c.auger, c.flightedLength, LeadName(c, flightIds), CarrierName(c, flightIds)) == Ok(r.value[1].qty)
    ensures (inCatalogue(LeadName(c, flightIds)) && inCatalogue(CarrierName(c, flightIds))) || c.overrideBom != "" ==>
      (r.Ok? <==> CarrierQtyOfNames(c.auger, c.flightedLength, LeadName(c, flightIds), CarrierName(c, flightIds)).Ok?)
      && (r.Fail? ==> r.error == CarrierQtyOfNames(c.auger, c.flightedLength, LeadName(c, flightIds), CarrierName(c, flightIds)).error)
  {
    var lead := LeadName(c, flightIds);
    var carrier := CarrierName(c, flightIds);
    var hasLead := inCatalogue(lead);
    var hasCarrier := inCatalogue(carrier);
    if (!hasLead || !hasCarrier) && c.overrideBom == "" then Fail(NotAvailable(MissingFlightIntended(hasLead, hasCarrier)))
    else
      match CarrierQtyOfNames(c.auger, c.flightedLength, lead, carrier)
      case Fail(e) => Fail(e)
      case Ok(carrierQty) =>
        Ok([if hasLead then Line(lead, LeadQty(c.auger, c.diameter) as real) else NoLine,
            if hasCarrier then Line(carrier, carrierQty) else NoLine])
  }

  /** With both flights in the catalogue the written and the intended rule agree. */
  lemma LeadOrCarrierFlightAgree(c: FlightChoice, flightIds: set<nat>, inCatalogue: string -> bool)
    requires inCatalogue(LeadName(c, flightIds)) && inCatalogue(CarrierName(c, flightIds))
    ensures LeadOrCarrierFlight(c, flightIds, inCatalogue) == LeadOrCarrierFlightIntended(c, flightIds, inCatalogue)
  {
  }

  /** An overridden BOM whose lead flight is missing still raises as written. */
  lemma OverrideStillRaises(c: FlightChoice, flightIds: set<nat>, inCatalogue: string -> bool)
    requires c.overrideBom != "" && !inCatalogue(LeadName(c, flightIds))
    ensures LeadOrCarrierFlight(c, flightIds, inCatalogue).Fail?
    ensures LeadOrCarrierFlightIntended(c, flightIds, inCatalogue).Ok? || LeadOrCarrierFlightIntended(c, flightIds, inCatalogue) == Fail(IndexError)
  {
  }

  /**
   * `_get_stock_lead_carrier_flight`: the lead and carrier lines of stocked
   * flights, `(None, 0)` for an empty name.
   */
  function StockLeadCarrierFlight(auger: string, diameter: int, lead: string, carrier: string, carrierQty: real): (r: seq<Line>)
    ensures |r| == 2
    ensures r[0] == (if lead == "" then NoLine else Line(lead, LeadQty(auger, diameter) as real))
    ensures r[1] == (if carrier == "" then NoLine else Line(carrier, carrierQty))
  {
    [Line(lead, if lead != "" then LeadQty(auger, diameter) as real else 0.0),
     Line(carrier, if carrier != "" then carrierQty else 0.0)]
  }

  /** The first named line of `s`, `("", 0)` when there is none. */
  function FirstNamed(s: seq<Line>): (r: Line)
    ensures r == NoLine || r in s
    ensures r != NoLine ==> Named(r)
    ensures r != NoLine ==> exists i :: 0 <= i < |s| && s[i] == r && forall j :: 0 <= j < i ==> !Named(s[j])
    ensures r == NoLine ==> forall l :: l in s ==> !Named(l) || l == NoLine
  {
    if s == [] then NoLine
    else if Named(s[0]) then s[0]
    else
      var r := FirstNamed(s[1..]);
      assert forall i :: 1 <= i < |s| ==> s[i] == s[1..][i - 1];
      r
  }

  /** `_get_non_or_stock_flights` (product_product.py): the first named non-stocked and the first named stocked line. */
  function NonOrStockFlights(nonStock: seq<Line>, stock: seq<Line>): (r: (Line, Line))
    ensures r.0 == FirstNamed(nonStock) && r.1 == FirstNamed(stock)
  {
    (FirstNamed(nonStock), FirstNamed(stock))
  }
}
