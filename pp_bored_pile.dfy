/**
 * The bored-pile auger builders of product_product.py and their dispatch.
 *
 * Each builder reads the diameter (the first run of digits of the "Auger
 * Diameter" attribute; indexing an empty match list raises), resolves the lead
 * and carrier flights (which may raise), assembles its candidate lines with
 * `(None, 0)` placeholders, appends its teeth list and keeps only the elements
 * `c and len(c) >= 2 and c[0] and c[1]` accepts.
 */
module BoredPile {
  import opened BomWrappers
  import opened Bom
  import opened PyRegex
  import opened AugerTeeth
  import opened AugerParts
  import opened AugerFlights

  /** The attribute values of a bored-pile auger variant; an unset attribute is "". */
  datatype Selection = Selection(auger: string, diameter: string, head: string, overallLength: string,
                                 flightedLength: string, rotation: string, teeth: string, pilot: string,
                                 tube: string, leadOd: string, leadPitch: string, carrierOd: string,
                                 carrierPitch: string, overrideBom: string)

  const RingHead := "Drive Head - 75mm Square"
  const RingTube := "Hollow Bar - OD150mm ID120mm"
  const RingName := "Stiffening Ring - 75mm Head"

  /** The stiffening ring: one for the 75mm head on the OD150 hollow bar, `(None, 0)` otherwise. */
  function StiffeningRing(head: string, tube: string): (r: Line)
    ensures Named(r) <==> head == RingHead && tube == RingTube
    ensures Named(r) ==> r == Line(RingName, 1.0)
  {
    if head == RingHead && tube == RingTube then Line(RingName, 1.0) else NoLine
  }

  /** The overall length in millimetres, 0 when the attribute holds no number. */
  function OverallLength(s: Selection): nat
  {
    OrZero(FirstNumber(s.overallLength))
  }

  function Choice(s: Selection, diameter: nat): FlightChoice
  {
    FlightChoice(s.auger, diameter, s.tube, s.leadPitch, s.leadOd, s.carrierPitch, s.carrierOd,
                 s.rotation, s.flightedLength, s.overrideBom)
  }

  /** The lead and carrier flights of a selection with a readable diameter. */
  function Flights(s: Selection, diameter: nat, flightIds: set<nat>, inCatalogue: string -> bool): Result<seq<Line>>
  {
    LeadOrCarrierFlight(Choice(s, diameter), flightIds, inCatalogue)
  }

  /** The pilot support named among a list of pairs; a list of pairs never raises. */
  function SupportOf(lines: seq<Line>): (r: Option<string>)
    ensures PilotSupport(Pairs(lines)) == Ok(r)
  {
    assert forall i :: 0 <= i < |Pairs(lines)| ==> !Raises(Pairs(lines)[i]);
    PilotSupport(Pairs(lines)).value
  }

  /** Dual/taper rock candidates: head, ring, base plate, gusset, brace, centre tube, flights, teeth. */
  function DualTaperLines(s: Selection, d: nat, flights: seq<Line>): seq<Line>
  {
    var teeth := DualTaperTeeth(d, s.teeth, s.pilot);
    [Line(s.head, 1.0), StiffeningRing(s.head, s.tube), BasePlate(s.head), TubeGusset(s.head, s.tube),
     FlightBrace(s.head, s.carrierOd, s.carrierPitch, d),
     CentreTube(OverallLength(s), s.head, s.tube, SupportOf(teeth))]
    + flights + teeth
  }

  /**
   * `_get_bp_dual_taper_rock`: raises when the diameter has no number or the
   * flights are not available; otherwise the counted candidate lines in order.
   */
  function DualTaperRock(s: Selection, flightIds: set<nat>, inCatalogue: string -> bool): (r: Result<seq<Item>>)
    ensures FirstNumber(s.diameter).None? ==> r == Fail(IndexError)
    ensures FirstNumber(s.diameter).Some? && Flights(s, FirstNumber(s.diameter).value, flightIds, inCatalogue).Fail? ==>
      r == Fail(Flights(s, FirstNumber(s.diameter).value, flightIds, inCatalogue).error)
    ensures FirstNumber(s.diameter).Some? && Flights(s, FirstNumber(s.diameter).value, flightIds, inCatalogue).Ok? ==>
      r == Ok(Pairs(KeepCounted(DualTaperLines(s, FirstNumber(s.diameter).value,
                                               Flights(s, FirstNumber(s.diameter).value, flightIds, inCatalogue).value))))
    ensures r.Ok? ==> forall c :: c in r.value ==> c.Pair? && Counted(c.line)
  {
    match FirstNumber(s.diameter)
    case None => Fail(IndexError)
    case Some(d) =>
      match Flights(s, d, flightIds, inCatalogue)
      case Fail(e) => Fail(e)
      case Ok(flights) =>
        KeepComponentsOfPairs(DualTaperLines(s, d, flights));
        KeepComponents(Pairs(DualTaperLines(s, d, flights)))
  }

  /** Triad rock candidates: head, centre tube, flights, teeth. */
  function TriadLines(s: Selection, d: nat, flights: seq<Line>): seq<Line>
  {
    var teeth := TriadTeeth(d, s.teeth, s.pilot);
    [Line(s.head, 1.0), CentreTube(OverallLength(s), s.head, s.tube, SupportOf(teeth))] + flights + teeth
  }

  /** `_get_bp_triad_rock` */
  function TriadRock(s: Selection, flightIds: set<nat>, inCatalogue: string -> bool): (r: Result<seq<Item>>)
    ensures FirstNumber(s.diameter).None? ==> r == Fail(IndexError)
    ensures FirstNumber(s.diameter).Some? && Flights(s, FirstNumber(s.diameter).value, flightIds, inCatalogue).Fail? ==>
      r == Fail(Flights(s, FirstNumber(s.diameter).value, flightIds, inCatalogue).error)
    ensures FirstNumber(s.diameter).Some? && Flights(s, FirstNumber(s.diameter).value, flightIds, inCatalogue).Ok? ==>
      r == Ok(Pairs(KeepCounted(TriadLines(s, FirstNumber(s.diameter).value,
                                           Flights(s, FirstNumber(s.diameter).value, flightIds, inCatalogue).value))))
    ensures r.Ok? ==> forall c :: c in r.value ==> c.Pair? && Counted(c.line)
  {
    match FirstNumber(s.diameter)
    case None => Fail(IndexError)
    case Some(d) =>
      match Flights(s, d, flightIds, inCatalogue)
      case Fail(e) => Fail(e)
      case Ok(flights) =>
        KeepComponentsOfPairs(TriadLines(s, d, flights));
        KeepComponents(Pairs(TriadLines(s, d, flights)))
  }

  const ZedAugers: seq<string> := ["ZED 25mm", "ZED 32mm", "ZED 40mm", "ZED 50mm"]
  const TeethBrace := Line("ZED Auger Teeth Brace", 2.0)

  /** ZED candidates: head, ring, base plate, gusset, brace, centre tube, flights, teeth brace, ZED centre, teeth. */
  function ZedLines(s: Selection, d: nat, flights: seq<Line>, centreTube: Line): seq<Line>
  {
    [Line(s.head, 1.0), StiffeningRing(s.head, s.tube), BasePlate(s.head), TubeGusset(s.head, s.tube),
     FlightBrace(s.head, s.carrierOd, s.carrierPitch, d), centreTube]
    + flights
    + [TeethBrace, Line(ZedCentre(s.tube), 1.0)]
    + ZedTeeth(d, OrZero(SearchNumber(s.tube, "OD")), s.teeth)
  }

  /**
   * `_get_bp_zed`: besides the diameter and the flights, the ZED centre tube
   * raises for a head without a base-plate height. A successful list always
   * holds the two teeth braces and the flight stiffener.
   */
  function ZedAuger(s: Selection, flightIds: set<nat>, inCatalogue: string -> bool): (r: Result<seq<Item>>)
    ensures FirstNumber(s.diameter).None? ==> r == Fail(IndexError)
    ensures FirstNumber(s.diameter).Some? && Flights(s, FirstNumber(s.diameter).value, flightIds, inCatalogue).Fail? ==>
      r == Fail(Flights(s, FirstNumber(s.diameter).value, flightIds, inCatalogue).error)
    ensures FirstNumber(s.diameter).Some? && Flights(s, FirstNumber(s.diameter).value, flightIds, inCatalogue).Ok? ==>
      var centre := ZedCentreTube(OverallLength(s), s.head, s.tube, ZedCentre(s.tube));
      (centre.Fail? ==> r == Fail(centre.error))
      && (centre.Ok? ==>
            r == Ok(Pairs(KeepCounted(ZedLines(s, FirstNumber(s.diameter).value,
                                               Flights(s, FirstNumber(s.diameter).value, flightIds, inCatalogue).value,
                                               centre.value)))))
    ensures r.Ok? ==> forall c :: c in r.value ==> c.Pair? && Counted(c.line)
    ensures r.Ok? ==> Pair(TeethBrace) in r.value && Pair(ZedStiffener(FirstNumber(s.diameter).value)) in r.value
  {
    match FirstNumber(s.diameter)
    case None => Fail(IndexError)
    case Some(d) =>
      match Flights(s, d, flightIds, inCatalogue)
      case Fail(e) => Fail(e)
      case Ok(flights) =>
        match ZedCentreTube(OverallLength(s), s.head, s.tube, ZedCentre(s.tube))
        case Fail(e) => Fail(e)
        case Ok(centre) =>
          var lines := ZedLines(s, d, flights, centre);
          ZedLinesHold(s, d, flights, centre);
          KeepComponentsOfPairs(lines);
          SurvivorsCounted(lines);
          KeepComponents(Pairs(lines))
  }

  /** The teeth brace and the flight stiffener survive the filter. */
  lemma ZedLinesHold(s: Selection, d: nat, flights: seq<Line>, centreTube: Line)
    ensures Pair(TeethBrace) in Pairs(KeepCounted(ZedLines(s, d, flights, centreTube)))
    ensures Pair(ZedStiffener(d)) in Pairs(KeepCounted(ZedLines(s, d, flights, centreTube)))
  {
    var lines := ZedLines(s, d, flights, centreTube);
    var teeth := ZedTeeth(d, OrZero(SearchNumber(s.tube, "OD")), s.teeth);
    assert TeethBrace in lines && teeth[|teeth| - 1] in lines;
    CountedSurvives(lines, TeethBrace);
    CountedSurvives(lines, ZedStiffener(d));
  }

  /** With a readable diameter and available flights, exactly nine heads build a ZED auger. */
  lemma ZedAugerHeads(s: Selection, flightIds: set<nat>, inCatalogue: string -> bool)
    requires FirstNumber(s.diameter).Some? && Flights(s, FirstNumber(s.diameter).value, flightIds, inCatalogue).Ok?
    ensures ZedAuger(s, flightIds, inCatalogue).Ok? <==>
      s.head in ["Drive Head - 100mm Square", "Drive Head - 110mm Square", "Drive Head - 130mm Square",
                 "Drive Head - 130mm Square DIGGA", "Drive Head - 150mm Square", "Drive Head - 150mm Square IMT",
                 "Drive Head - 200mm Square Bauer", "Drive Head - 200mm Square MAIT", "Drive Head - 4\" Lo Drill"]
  {
    ZedCentreTubeHeads(OverallLength(s), s.head, s.tube, ZedCentre(s.tube));
  }

  /** Clay/shale candidates before the teeth: head, ring, base plate, gusset, centre tube, flights. */
  function ClayLines(s: Selection, flights: seq<Line>, support: Option<string>): seq<Line>
  {
    [Line(s.head, 1.0), StiffeningRing(s.head, s.tube), BasePlate(s.head), TubeGusset(s.head, s.tube),
     CentreTube(OverallLength(s), s.head, s.tube, support)]
    + flights
  }

  /** The selection takes an AR150 branch and a rock pilot that brings a third tooth. */
  predicate ThirdTooth(d: int, s: Selection)
  {
    ClayBranchOf(d, s.teeth) in {Formula, Fixed} && HasKey(ClayThirdTeeth, s.pilot)
  }

  /**
   * `_get_bp_clay_shale` as written: the bare count 4 that `teeth_3` leaves in
   * the teeth list makes the filter's `len` raise `TypeError`, so the builder
   * fails exactly for AR150 teeth with a rock pilot.
   */
  function ClayShaleAuger(s: Selection, flightIds: set<nat>, inCatalogue: string -> bool): (r: Result<seq<Item>>)
    ensures FirstNumber(s.diameter).None? ==> r == Fail(IndexError)
    ensures FirstNumber(s.diameter).Some? && Flights(s, FirstNumber(s.diameter).value, flightIds, inCatalogue).Fail? ==>
      r == Fail(Flights(s, FirstNumber(s.diameter).value, flightIds, inCatalogue).error)
    ensures FirstNumber(s.diameter).Some? && Flights(s, FirstNumber(s.diameter).value, flightIds, inCatalogue).Ok? ==>
      (r.Fail? <==> ThirdTooth(FirstNumber(s.diameter).value, s)) && (r.Fail? ==> r.error == TypeError)
    ensures r.Ok? ==> forall c :: c in r.value ==> Passes(c) == Ok(true)
  {
    match FirstNumber(s.diameter)
    case None => Fail(IndexError)
    case Some(d) =>
      match Flights(s, d, flightIds, inCatalogue)
      case Fail(e) => Fail(e)
      case Ok(flights) =>
        var teeth := ClayShaleTeeth(d, s.teeth, s.pilot);
        if ThirdTooth(d, s) then
          assert Raises(teeth[|teeth| - 1]);
          match PilotSupport(teeth)
          case Fail(e) => Fail(e)
          case Ok(support) =>
            var items := Pairs(ClayLines(s, flights, support)) + teeth;
            assert Raises(items[|items| - 1]);
            KeepComponents(items)
        else
          ClayShaleAgreeWithoutThirdTooth(d, s.teeth, s.pilot);
          var support := SupportOf(ClayShaleTeethLines(d, s.teeth, s.pilot));
          var lines := ClayLines(s, flights, support) + ClayShaleTeethLines(d, s.teeth, s.pilot);
          PairsAppend(ClayLines(s, flights, support), ClayShaleTeethLines(d, s.teeth, s.pilot));
          KeepComponentsOfPairs(lines);
          KeepComponents(Pairs(ClayLines(s, flights, support)) + teeth)
  }

  /**
   * `_get_bp_clay_shale` as evidently intended: the third tooth is one more
   * line, and the builder fails only on the diameter or the flights.
   */
  function ClayShaleAugerIntended(s: Selection, flightIds: set<nat>, inCatalogue: string -> bool): (r: Result<seq<Item>>)
    ensures FirstNumber(s.diameter).None? ==> r == Fail(IndexError)
    ensures FirstNumber(s.diameter).Some? ==>
      var f := Flights(s, FirstNumber(s.diameter).value, flightIds, inCatalogue);
      (f.Fail? ==> r == Fail(f.error)) && (f.Ok? ==> r.Ok?)
    ensures r.Ok? ==> forall c :: c in r.value ==> c.Pair? && Counted(c.line)
    ensures r.Ok? && ThirdTooth(FirstNumber(s.diameter).value, s) ==>
      Pair(GetOr(ClayThirdTeeth, s.pilot, NoLine)) in r.value
  {
    match FirstNumber(s.diameter)
    case None => Fail(IndexError)
    case Some(d) =>
      match Flights(s, d, flightIds, inCatalogue)
      case Fail(e) => Fail(e)
      case Ok(flights) =>
        var teeth := ClayShaleTeethLines(d, s.teeth, s.pilot);
        var lines := ClayLines(s, flights, SupportOf(teeth)) + teeth;
        KeepComponentsOfPairs(lines);
        SurvivorsCounted(lines);
        ClayThirdSurvives(s, d, flights);
        KeepComponents(Pairs(lines))
  }

  /** On the third-tooth branch the intended list keeps the third tooth. */
  lemma ClayThirdSurvives(s: Selection, d: nat, flights: seq<Line>)
    ensures var teeth := ClayShaleTeethLines(d, s.teeth, s.pilot);
      ThirdTooth(d, s) ==>
        Pair(GetOr(ClayThirdTeeth, s.pilot, NoLine)) in Pairs(KeepCounted(ClayLines(s, flights, SupportOf(teeth)) + teeth))
  {
    var teeth := ClayShaleTeethLines(d, s.teeth, s.pilot);
    var lines := ClayLines(s, flights, SupportOf(teeth)) + teeth;
    if ThirdTooth(d, s) {
      var third := GetOr(ClayThirdTeeth, s.pilot, NoLine);
      assert teeth[|teeth| - 1] == third;
      assert third in lines;
      CountedSurvives(lines, third);
    }
  }

  /** Outside the third-tooth case the written builder gives the intended list. */
  lemma ClayShaleAgree(s: Selection, flightIds: set<nat>, inCatalogue: string -> bool)
    requires FirstNumber(s.diameter).None? || !ThirdTooth(FirstNumber(s.diameter).value, s)
    ensures ClayShaleAuger(s, flightIds, inCatalogue) == ClayShaleAugerIntended(s, flightIds, inCatalogue)
  {
    if FirstNumber(s.diameter).Some? {
      var d := FirstNumber(s.diameter).value;
      if Flights(s, d, flightIds, inCatalogue).Ok? {
        var flights := Flights(s, d, flightIds, inCatalogue).value;
        ClayShaleAgreeWithoutThirdTooth(d, s.teeth, s.pilot);
        var teeth := ClayShaleTeethLines(d, s.teeth, s.pilot);
        var support := SupportOf(teeth);
        PairsAppend(ClayLines(s, flights, support), teeth);
      }
    }
  }

  /** The blade parts never make the filter or the pilot-support search raise; counted parts survive. */
  lemma BladeFilter(lines: seq<Line>, b: BladeParts)
    ensures var r := KeepComponents(Pairs(lines) + BladeItems(b));
      r.Ok?
      && (forall c :: c in r.value ==> c.Pair? && Counted(c.line))
      && (b.teeth.Some? && Counted(b.teeth.value) ==> Pair(b.teeth.value) in r.value)
      && (b.support.Some? && Counted(b.support.value) ==> Pair(b.support.value) in r.value)
  {
    var parts := BladeItems(b);
    assert forall i :: 0 <= i < |parts| ==> parts[i].Pair? || parts[i] == Absent;
    var items := Pairs(lines) + parts;
    assert forall i :: 0 <= i < |items| ==> !Raises(items[i]);
    assert forall c :: c in items && Passes(c) == Ok(true) ==> c.Pair? && Counted(c.line);
    assert b.teeth.Some? ==> parts[0] == Pair(b.teeth.value);
    assert b.support.Some? ==> parts[3] == Pair(b.support.value);
  }

  /** The search for a pilot support among the blade parts never raises. */
  lemma BladeSupportFound(b: BladeParts)
    ensures PilotSupport(BladeItems(b)).Ok?
  {
    var parts := BladeItems(b);
    assert forall i :: 0 <= i < |parts| ==> parts[i].Pair? || parts[i] == Absent;
  }

  /** Blade candidates before the five blade parts: head, centre tube, flights. */
  function BladeLines(s: Selection, flights: seq<Line>, support: Option<string>): seq<Line>
  {
    [Line(s.head, 1.0), CentreTube(OverallLength(s), s.head, s.tube, support)] + flights
  }

  /**
   * `_get_bp_blade`: the five blade parts are appended as they are, `None`
   * included; the filter drops the `None`s and never raises.
   */
  function BladeAuger(s: Selection, flightIds: set<nat>, inCatalogue: string -> bool): (r: Result<seq<Item>>)
    ensures FirstNumber(s.diameter).None? ==> r == Fail(IndexError)
    ensures FirstNumber(s.diameter).Some? ==>
      var f := Flights(s, FirstNumber(s.diameter).value, flightIds, inCatalogue);
      (f.Fail? ==> r == Fail(f.error)) && (f.Ok? ==> r.Ok?)
    ensures r.Ok? ==> forall c :: c in r.value ==> c.Pair? && Counted(c.line)
    ensures r.Ok? ==>
      var parts := BladeTeeth(FirstNumber(s.diameter).value, s.pilot);
      (parts.teeth.Some? && Counted(parts.teeth.value) ==> Pair(parts.teeth.value) in r.value)
      && (parts.support.Some? && Counted(parts.support.value) ==> Pair(parts.support.value) in r.value)
  {
    match FirstNumber(s.diameter)
    case None => Fail(IndexError)
    case Some(d) =>
      match Flights(s, d, flightIds, inCatalogue)
      case Fail(e) => Fail(e)
      case Ok(flights) =>
        var parts := BladeTeeth(d, s.pilot);
        BladeSupportFound(parts);
        var lines := BladeLines(s, flights, PilotSupport(BladeItems(parts)).value);
        BladeFilter(lines, parts);
        KeepComponents(Pairs(lines) + BladeItems(parts))
  }

  /** The builder `_get_bored_pile_component` picks for an auger type. */
  datatype AugerKind = DualTaper | Triad | Zed | ClayShale | Blade

  function KindOf(auger: string): (k: AugerKind)
    ensures k == DualTaper <==> auger in ["Taper Rock", "Dual Rock"]
    ensures k == Triad <==> auger == "Triad Rock"
    ensures k == Zed <==> auger in ZedAugers
    ensures k == ClayShale <==> auger == "Clay/Shale"
    ensures k == Blade <==> auger !in ["Taper Rock", "Dual Rock", "Triad Rock", "Clay/Shale"] && auger !in ZedAugers
  {
    if auger in ["Taper Rock", "Dual Rock"] then DualTaper
    else if auger == "Triad Rock" then Triad
    else if auger in ZedAugers then Zed
    else if auger == "Clay/Shale" then ClayShale
    else Blade
  }

  /** `_get_bored_pile_component`: the builder for the selected auger type, blade for any other. */
  function BoredPileComponents(s: Selection, flightIds: set<nat>, inCatalogue: string -> bool): (r: Result<seq<Item>>)
    ensures KindOf(s.auger) == DualTaper ==> r == DualTaperRock(s, flightIds, inCatalogue)
    ensures KindOf(s.auger) == Triad ==> r == TriadRock(s, flightIds, inCatalogue)
    ensures KindOf(s.auger) == Zed ==> r == ZedAuger(s, flightIds, inCatalogue)
    ensures KindOf(s.auger) == ClayShale ==> r == ClayShaleAuger(s, flightIds, inCatalogue)
    ensures KindOf(s.auger) == Blade ==> r == BladeAuger(s, flightIds, inCatalogue)
  {
    match KindOf(s.auger)
    case DualTaper => DualTaperRock(s, flightIds, inCatalogue)
    case Triad => TriadRock(s, flightIds, inCatalogue)
    case Zed => ZedAuger(s, flightIds, inCatalogue)
    case ClayShale => ClayShaleAuger(s, flightIds, inCatalogue)
    case Blade => BladeAuger(s, flightIds, inCatalogue)
  }

  /**
   * Whatever the auger type, a bored-pile list holds only named lines with a
   * non-zero quantity, none of them a placeholder, and filtering it again
   * changes nothing.
   */
  lemma BoredPileFiltered(s: Selection, flightIds: set<nat>, inCatalogue: string -> bool)
    requires BoredPileComponents(s, flightIds, inCatalogue).Ok?
    ensures forall c :: c in BoredPileComponents(s, flightIds, inCatalogue).value ==> c.Pair? && Counted(c.line)
    ensures Pair(NoLine) !in BoredPileComponents(s, flightIds, inCatalogue).value
    ensures KeepComponents(BoredPileComponents(s, flightIds, inCatalogue).value) == BoredPileComponents(s, flightIds, inCatalogue)
  {
    var r := BoredPileComponents(s, flightIds, inCatalogue);
    if KindOf(s.auger) == ClayShale {
      var d := FirstNumber(s.diameter).value;
      assert !ThirdTooth(d, s);
      ClayShaleAgree(s, flightIds, inCatalogue);
    }
    KeepComponentsAllPass(r.value);
  }
}
