/**
 * The bored-pile auger builders of bom_automation_v2.py and their dispatch
 * (`_get_bored_pile_component`, `_get_bp_dual_taper_rock`,
 * `_get_bp_triad_rock`, `_get_bp_zed`, `_get_bp_clay_shale`,
 * `_get_bp_blade`).
 *
 * Each builder reads the diameter (the first run of digits; indexing an
 * empty match list raises `IndexError`), computes the carrier quantity
 * (which may raise), merges the non-stocked and stocked flight lines and
 * unpacks the merge into exactly a lead and a carrier flight (`ValueError`
 * for any other number), appends its teeth list and keeps the lines whose
 * name and quantity are both truthy.
 */
module BoredPileV2 {
  import opened BomWrappers
  import opened Bom
  import opened PyRegex
  import AugerParts
  import AugerFlights
  import AugerTeeth
  import BoredPile
  import P = AugerPartsV2
  import T = AugerTeethV2

  /** The attribute values of a bored-pile auger variant in this revision; an unset attribute is "". */
  datatype Selection = Selection(auger: string, diameter: string, head: string, overallLength: string,
                                 flightedLength: string, rotation: string, teeth: string, pilot: string,
                                 tube: string, lead: string, carrier: string, nLead: string, nCarrier: string)

  /** The overall length in millimetres, 0 when the attribute holds no number. */
  function OverallLength(s: Selection): nat
  {
    AugerFlights.OrZero(FirstNumber(s.overallLength))
  }

  /** The carrier quantity `_get_carrier_flight_qty` computes for a selection. */
  function CarrierQtyOf(s: Selection): Result<real>
  {
    P.CarrierQty(s.auger, s.lead, s.carrier, s.nLead, s.nCarrier, s.flightedLength)
  }

  /** The non-stocked lead, stocked lead, non-stocked carrier and stocked carrier lines, in merge order. */
  function FlightCandidates(s: Selection, d: nat, carrierQty: real): (r: seq<Line>)
    ensures |r| == 4
    ensures Named(r[0]) <==> s.nLead != ""
    ensures Named(r[1]) <==> s.lead != ""
    ensures Named(r[2]) <==> s.nCarrier != ""
    ensures Named(r[3]) <==> s.carrier != ""
  {
    var ns := P.NonStockLeadCarrierFlight(s.auger, d, s.tube, s.nLead, s.nCarrier, s.rotation, carrierQty);
    var st := AugerFlights.StockLeadCarrierFlight(s.auger, d, s.lead, s.carrier, carrierQty);
    [ns[0], st[0], ns[1], st[1]]
  }

  /** What `_get_non_or_stock_flights` returns for a selection. */
  function Merged(s: Selection, d: nat, carrierQty: real): (r: seq<Line>)
    ensures r == KeepNamed(FlightCandidates(s, d, carrierQty))
  {
    var ns := P.NonStockLeadCarrierFlight(s.auger, d, s.tube, s.nLead, s.nCarrier, s.rotation, carrierQty);
    var st := AugerFlights.StockLeadCarrierFlight(s.auger, d, s.lead, s.carrier, carrierQty);
    P.MergedFlights(ns, st);
    P.MergedFrom(ns, st, 0)
  }

  function Count(b: bool): nat
  {
    if b then 1 else 0
  }

  /** How many of the four flight attributes are set. */
  function SetFlights(s: Selection): nat
  {
    Count(s.nLead != "") + Count(s.lead != "") + Count(s.nCarrier != "") + Count(s.carrier != "")
  }

  /** The named filter on one line. */
  lemma KeepNamedOne(a: Line)
    ensures KeepNamed([a]) == P.IfNamed(a)
  {
    assert [a][1..] == [];
  }

  /** The named filter on four lines keeps each that is named, in order. */
  lemma KeepNamedFour(a: Line, b: Line, c: Line, e: Line)
    ensures KeepNamed([a, b, c, e]) == P.IfNamed(a) + P.IfNamed(b) + P.IfNamed(c) + P.IfNamed(e)
    ensures |KeepNamed([a, b, c, e])| == Count(Named(a)) + Count(Named(b)) + Count(Named(c)) + Count(Named(e))
  {
    assert [a, b, c, e] == [a] + [b] + [c] + [e];
    KeepAppend([a] + [b] + [c], [e], Named);
    KeepAppend([a] + [b], [c], Named);
    KeepAppend([a], [b], Named);
    KeepNamedOne(a);
    KeepNamedOne(b);
    KeepNamedOne(c);
    KeepNamedOne(e);
  }

  /**
   * The lead and carrier flights: the carrier quantity's error, else the
   * merged lines when there are exactly two of them, else `ValueError` from
   * the two-name unpacking. Exactly two of the four flight attributes must
   * be set.
   */
  function Flights(s: Selection, d: nat): (r: Result<seq<Line>>)
    ensures CarrierQtyOf(s).Fail? ==> r == Fail(CarrierQtyOf(s).error)
    ensures CarrierQtyOf(s).Ok? ==> (r.Ok? <==> SetFlights(s) == 2)
    ensures CarrierQtyOf(s).Ok? && r.Fail? ==> r.error == ValueError
    ensures r.Ok? ==> r.value == Merged(s, d, CarrierQtyOf(s).value)
    ensures r.Ok? ==> |r.value| == 2 && Named(r.value[0]) && Named(r.value[1])
  {
    match CarrierQtyOf(s)
    case Fail(e) => Fail(e)
    case Ok(cq) =>
      var c := FlightCandidates(s, d, cq);
      KeepNamedFour(c[0], c[1], c[2], c[3]);
      assert c == [c[0], c[1], c[2], c[3]];
      var m := Merged(s, d, cq);
      if |m| != 2 then Fail(ValueError)
      else
        assert m[0] in m && m[1] in m;
        Ok(m)
  }

  /**
   * With only the stocked lead and carrier flights set, the flights are
   * those two lines: the lead quantity of the auger type and the carrier
   * quantity.
   */
  lemma StockedFlightsOnly(s: Selection, d: nat)
    requires s.lead != "" && s.carrier != "" && s.nLead == "" && s.nCarrier == "" && CarrierQtyOf(s).Ok?
    ensures Flights(s, d) == Ok([Line(s.lead, AugerFlights.LeadQty(s.auger, d) as real), Line(s.carrier, CarrierQtyOf(s).value)])
  {
    var c := FlightCandidates(s, d, CarrierQtyOf(s).value);
    assert c == [c[0], c[1], c[2], c[3]];
    KeepNamedFour(c[0], c[1], c[2], c[3]);
    assert Merged(s, d, CarrierQtyOf(s).value) == [c[1], c[3]];
  }

  /** Head, ears, ring, base plate, gusset and brace: the leading candidates of dual/taper and ZED. */
  function HeadLines(s: Selection, d: nat): seq<Line>
  {
    [Line(s.head, 1.0), P.DriveHeadEars(s.head), BoredPile.StiffeningRing(s.head, s.tube),
     AugerParts.BasePlate(s.head), P.TubeGusset(s.head, s.tube), P.FlightBrace(s.head, s.carrier, d)]
  }

  /** The centre tube `_get_center_tube` gives with the pilot-support value a builder passes. */
  function Centre(s: Selection, support: P.PilotKey): Line
  {
    P.CentreTube(OverallLength(s), s.head, s.tube, support)
  }

  /** The support entry of a five-line teeth list, which the builders pass to `_get_center_tube`. */
  function SupportKey(teeth: seq<Line>): P.PilotKey
  {
    if |teeth| == 5 then P.SupportPair(teeth[3]) else P.NoSupport
  }

  /** Dual/taper candidates. */
  function DualTaperLines(s: Selection, d: nat, flights: seq<Line>, teeth: seq<Line>): seq<Line>
  {
    HeadLines(s, d) + [Centre(s, SupportKey(teeth))] + flights + teeth
  }

  /**
   * `_get_bp_dual_taper_rock`: after the diameter and the flights, an
   * unlisted tooth type raises `ValueError` (five names unpacked from an
   * empty list); otherwise the counted candidates, which always include the
   * odd teeth count.
   */
  function DualTaperRock(s: Selection): (r: Result<seq<Line>>)
    ensures FirstNumber(s.diameter).None? ==> r == Fail(IndexError)
    ensures FirstNumber(s.diameter).Some? && Flights(s, FirstNumber(s.diameter).value).Fail? ==>
      r == Fail(Flights(s, FirstNumber(s.diameter).value).error)
    ensures FirstNumber(s.diameter).Some? && Flights(s, FirstNumber(s.diameter).value).Ok? ==>
      (r == Fail(ValueError) <==> !HasKey(T.DualTaperSpecs, s.teeth))
    ensures r.Ok? ==>
      var d := FirstNumber(s.diameter).value;
      r.value == KeepCounted(DualTaperLines(s, d, Flights(s, d).value, T.DualTaperTeeth(d, s.teeth)))
      && T.DualTaperTeeth(d, s.teeth)[0] in r.value
  {
    match FirstNumber(s.diameter)
    case None => Fail(IndexError)
    case Some(d) =>
      match Flights(s, d)
      case Fail(e) => Fail(e)
      case Ok(flights) =>
        var teeth := T.DualTaperTeeth(d, s.teeth);
        if teeth == [] then Fail(ValueError)
        else
          DualTaperTeethKept(s, d, flights, teeth);
          Ok(KeepCounted(DualTaperLines(s, d, flights, teeth)))
  }

  /** A counted first teeth line survives the filter. */
  lemma DualTaperTeethKept(s: Selection, d: nat, flights: seq<Line>, teeth: seq<Line>)
    requires teeth == T.DualTaperTeeth(d, s.teeth) && teeth != []
    ensures teeth[0] in KeepCounted(DualTaperLines(s, d, flights, teeth))
  {
    var lines := DualTaperLines(s, d, flights, teeth);
    assert lines == (HeadLines(s, d) + [Centre(s, SupportKey(teeth))] + flights) + teeth;
    assert teeth[0] in lines;
  }

  /** Triad candidates: head, centre tube, flights and the teeth when there are any. */
  function TriadLines(s: Selection, d: nat, flights: seq<Line>, teeth: Option<seq<Line>>): seq<Line>
  {
    var t := if teeth.Some? then teeth.value else [];
    [Line(s.head, 1.0), Centre(s, SupportKey(t))] + flights + t
  }

  /** `_get_bp_triad_rock`: without BC86 teeth the list simply has no teeth. */
  function TriadRock(s: Selection): (r: Result<seq<Line>>)
    ensures FirstNumber(s.diameter).None? ==> r == Fail(IndexError)
    ensures FirstNumber(s.diameter).Some? ==>
      var f := Flights(s, FirstNumber(s.diameter).value);
      (f.Fail? ==> r == Fail(f.error)) && (f.Ok? ==> r.Ok?)
    ensures r.Ok? ==>
      var d := FirstNumber(s.diameter).value;
      r.value == KeepCounted(TriadLines(s, d, Flights(s, d).value, T.TriadTeeth(d, s.teeth)))
      && (s.teeth == T.TriadTooth <==> T.TriadTeeth(d, s.teeth).Some? && T.TriadTeeth(d, s.teeth).value[0] in r.value)
  {
    match FirstNumber(s.diameter)
    case None => Fail(IndexError)
    case Some(d) =>
      match Flights(s, d)
      case Fail(e) => Fail(e)
      case Ok(flights) =>
        var teeth := T.TriadTeeth(d, s.teeth);
        var lines := TriadLines(s, d, flights, teeth);
        assert teeth.Some? ==> teeth.value[0] in lines;
        Ok(KeepCounted(lines))
  }

  /**
   * ZED candidates: the leading lines, the ZED centre tube, the flights, the
   * teeth, holders and weld buttons, the teeth brace, the flight stiffener
   * and the ZED centre.
   */
  function ZedLines(s: Selection, d: nat, flights: seq<Line>, teeth: seq<Line>): seq<Line>
  {
    HeadLines(s, d) + [P.ZedCentreTube(OverallLength(s), s.head, s.tube, AugerParts.ZedCentre(s.tube))] + flights
    + ZedTail(teeth, AugerParts.ZedCentre(s.tube))
  }

  /** The ZED candidates after the flights. */
  function ZedTail(teeth: seq<Line>, centre: string): seq<Line>
  {
    (if |teeth| == 4 then teeth[..3] else []) + [BoredPile.TeethBrace]
    + (if |teeth| == 4 then [teeth[3]] else []) + [Line(centre, 1.0)]
  }

  /** The `OD` number of the centre tube, 0 without one. */
  function TubeOd(s: Selection): nat
  {
    AugerFlights.OrZero(SearchNumber(s.tube, "OD"))
  }

  /**
   * `_get_bp_zed`: always the teeth brace; the flight stiffener whenever
   * the tooth type is listed; the ZED centre exactly when the tube has one.
   */
  function ZedAuger(s: Selection): (r: Result<seq<Line>>)
    ensures FirstNumber(s.diameter).None? ==> r == Fail(IndexError)
    ensures FirstNumber(s.diameter).Some? ==>
      var f := Flights(s, FirstNumber(s.diameter).value);
      (f.Fail? ==> r == Fail(f.error)) && (f.Ok? ==> r.Ok?)
    ensures r.Ok? ==>
      var d := FirstNumber(s.diameter).value;
      r.value == KeepCounted(ZedLines(s, d, Flights(s, d).value, T.ZedTeeth(d, TubeOd(s), s.teeth)))
      && BoredPile.TeethBrace in r.value
      && (HasKey(T.ZedSpecs, s.teeth) ==> AugerTeeth.ZedStiffener(d) in r.value)
      && (Line(AugerParts.ZedCentre(s.tube), 1.0) in r.value <==> AugerParts.ZedCentre(s.tube) != "")
  {
    match FirstNumber(s.diameter)
    case None => Fail(IndexError)
    case Some(d) =>
      match Flights(s, d)
      case Fail(e) => Fail(e)
      case Ok(flights) =>
        var teeth := T.ZedTeeth(d, TubeOd(s), s.teeth);
        ZedTailKept(HeadLines(s, d) + [P.ZedCentreTube(OverallLength(s), s.head, s.tube, AugerParts.ZedCentre(s.tube))] + flights,
                    teeth, AugerParts.ZedCentre(s.tube));
        Ok(KeepCounted(ZedLines(s, d, flights, teeth)))
  }

  /** The teeth brace, a counted stiffener and a named ZED centre survive the filter. */
  lemma ZedTailKept(front: seq<Line>, teeth: seq<Line>, centre: string)
    ensures var k := KeepCounted(front + ZedTail(teeth, centre));
      BoredPile.TeethBrace in k
      && (|teeth| == 4 && Counted(teeth[3]) ==> teeth[3] in k)
      && (Line(centre, 1.0) in k <==> centre != "")
  {
    var tail := ZedTail(teeth, centre);
    KeepAppend(front, tail, Counted);
    assert tail[|tail| - 1] == Line(centre, 1.0);
    assert BoredPile.TeethBrace in tail;
    assert |teeth| == 4 ==> teeth[3] in tail;
  }

  /** Clay/shale candidates: the leading lines without the brace, centre tube, flights, teeth. */
  function ClayLines(s: Selection, d: nat, flights: seq<Line>, teeth: seq<Line>): seq<Line>
  {
    HeadLines(s, d)[..5] + [Centre(s, SupportKey(teeth))] + flights + teeth
  }

  /** `_get_bp_clay_shale`: the teeth only at 300, 400, 450 and 600mm. */
  function ClayShaleAuger(s: Selection): (r: Result<seq<Line>>)
    ensures FirstNumber(s.diameter).None? ==> r == Fail(IndexError)
    ensures FirstNumber(s.diameter).Some? ==>
      var f := Flights(s, FirstNumber(s.diameter).value);
      (f.Fail? ==> r == Fail(f.error)) && (f.Ok? ==> r.Ok?)
    ensures r.Ok? ==>
      var d := FirstNumber(s.diameter).value;
      r.value == KeepCounted(ClayLines(s, d, Flights(s, d).value, T.ClayShaleTeeth(d)))
      && (HasKey(T.ClayDiameters, d) ==> T.ClayShaleTeeth(d)[0] in r.value)
  {
    match FirstNumber(s.diameter)
    case None => Fail(IndexError)
    case Some(d) =>
      match Flights(s, d)
      case Fail(e) => Fail(e)
      case Ok(flights) =>
        ClayTeethKept(s, d, flights);
        Ok(KeepCounted(ClayLines(s, d, flights, T.ClayShaleTeeth(d))))
  }

  /** At a listed diameter the AR150 teeth line survives the filter. */
  lemma ClayTeethKept(s: Selection, d: nat, flights: seq<Line>)
    ensures HasKey(T.ClayDiameters, d) ==>
      T.ClayShaleTeeth(d)[0] in KeepCounted(ClayLines(s, d, flights, T.ClayShaleTeeth(d)))
  {
    if HasKey(T.ClayDiameters, d) {
      var teeth := T.ClayShaleTeeth(d);
      assert ClayLines(s, d, flights, teeth) == (HeadLines(s, d)[..5] + [Centre(s, SupportKey(teeth))] + flights) + teeth;
      assert teeth[0] in ClayLines(s, d, flights, teeth);
      GetClay(d);
    }
  }

  /** Every listed diameter fits some AR150 teeth. */
  lemma GetClay(d: int)
    requires HasKey(T.ClayDiameters, d)
    ensures Get(T.ClayDiameters, d).value.0 > 0
  {
  }

  /** Blade candidates: head, centre tube, flights, blade parts. */
  function BladeLines(s: Selection, d: nat, flights: seq<Line>, teeth: seq<Line>): seq<Line>
  {
    [Line(s.head, 1.0), Centre(s, SupportKey(teeth))] + flights + teeth
  }

  /** `_get_bp_blade`: the quarter OD101 pipe support whenever the diameter is listed. */
  function BladeAuger(s: Selection): (r: Result<seq<Line>>)
    ensures FirstNumber(s.diameter).None? ==> r == Fail(IndexError)
    ensures FirstNumber(s.diameter).Some? ==>
      var f := Flights(s, FirstNumber(s.diameter).value);
      (f.Fail? ==> r == Fail(f.error)) && (f.Ok? ==> r.Ok?)
    ensures r.Ok? ==>
      var d := FirstNumber(s.diameter).value;
      r.value == KeepCounted(BladeLines(s, d, Flights(s, d).value, T.BladeTeeth(d, s.pilot)))
      && (HasKey(AugerTeeth.BladeDiameters, d) ==> Line(T.PipeSupport, 0.25) in r.value)
  {
    match FirstNumber(s.diameter)
    case None => Fail(IndexError)
    case Some(d) =>
      match Flights(s, d)
      case Fail(e) => Fail(e)
      case Ok(flights) =>
        var teeth := T.BladeTeeth(d, s.pilot);
        var lines := BladeLines(s, d, flights, teeth);
        assert teeth != [] ==> teeth[3] in lines;
        Ok(KeepCounted(lines))
  }

  /** `_get_bored_pile_component`: the builder for the selected auger type, blade for any other. */
  function BoredPileComponents(s: Selection): (r: Result<seq<Line>>)
    ensures BoredPile.KindOf(s.auger) == BoredPile.DualTaper ==> r == DualTaperRock(s)
    ensures BoredPile.KindOf(s.auger) == BoredPile.Triad ==> r == TriadRock(s)
    ensures BoredPile.KindOf(s.auger) == BoredPile.Zed ==> r == ZedAuger(s)
    ensures BoredPile.KindOf(s.auger) == BoredPile.ClayShale ==> r == ClayShaleAuger(s)
    ensures BoredPile.KindOf(s.auger) == BoredPile.Blade ==> r == BladeAuger(s)
    ensures FirstNumber(s.diameter).None? ==> r == Fail(IndexError)
  {
    match BoredPile.KindOf(s.auger)
    case DualTaper => DualTaperRock(s)
    case Triad => TriadRock(s)
    case Zed => ZedAuger(s)
    case ClayShale => ClayShaleAuger(s)
    case Blade => BladeAuger(s)
  }

  /**
   * Whatever the auger type, a bored-pile list holds only named lines with a
   * non-zero quantity, so no placeholder, and filtering it again changes
   * nothing.
   */
  lemma BoredPileFiltered(s: Selection)
    requires BoredPileComponents(s).Ok?
    ensures forall l :: l in BoredPileComponents(s).value ==> Counted(l)
    ensures NoLine !in BoredPileComponents(s).value
    ensures KeepCounted(BoredPileComponents(s).value) == BoredPileComponents(s).value
  {
    KeepAllPass(BoredPileComponents(s).value, Counted);
  }
}
