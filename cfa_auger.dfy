/**
 * The CFA auger builders of product_bom.py: `_get_cfa_auger_components`
 * dispatches on the auger type and the lead type to five builders, each of
 * which concatenates the drive-head couplings and tubes, the flights, the
 * teeth, the centre-tube parts and (for ZED and Single Cut) their own parts,
 * and keeps the named lines.
 *
 * Every builder asks the same helpers for its groups, so the model asks them
 * once (`GroupsOf`) and hands the groups to the builders; the builder that
 * does not use a group (the Extension never asks for flights, an
 * Intermediate for teeth) ignores it.
 *
 * The Auger Diameter attribute is read with `int(re.search(r"\d+\.?\d*", d).group())`
 * (`AugerComponents`, which raises as that read does); the Length attribute
 * is read with `([\d.]+)\s*m\b`, and the model takes the number of metres
 * it yields as a parameter.
 */
module CfaAuger {
  import opened BomWrappers
  import opened Bom
  import opened PyText
  import opened PyRegex
  import CfaCoupling
  import CfaFlights
  import CfaTeeth

  /** The attributes of a CFA auger variant, as the builders use them. */
  datatype Attrs = Attrs(cfaType: string, leadType: string, diameter: int, driveHead: string, lengthM: real,
                         teeth: string, pilot: string, centreTube: string, innerTube: string,
                         flights: CfaFlights.FlightAttrs, overrideBom: string)

  const RockLeads: seq<string> := ["Taper Rock", "Dual Rock", "Clay/Shale"]
  const ZedLeads: seq<string> := ["ZED 25mm", "ZED 32mm", "ZED 40mm", "ZED 50mm"]

  // ---------------------------------------------------------------- the groups the builders join

  /**
   * The groups of a builder: `base_coupling_at2` (couplings, base plate and
   * tubes), `cfa_stock_flights_at4`, `teeth_and_pilot_at5` as the
   * combination unpacks it, and `ctube_at3`.
   */
  datatype Groups = Groups(base: seq<Line>, flights: Result<seq<Line>>, teeth: Result<seq<Line>>, tube: seq<Line>)

  /** `zed_center`: the ZED centre of the tube for the ZED builder, "" for every other builder. */
  function ZedName(a: Attrs): string
  {
    if a.cfaType == "Lead" && a.leadType in ZedLeads then CfaTeeth.ZedCentre(a.centreTube, a.diameter)[0].name else ""
  }

  /**
   * The teeth group as the combination unpacks it. For a lead type with no
   * teeth rule it is the pair `(None, 0)`, whose first element the filter
   * then subscripts: `TypeError`.
   */
  function TeethLines(a: Attrs): (r: Result<seq<Line>>)
    ensures r.Fail? ==> r.error == TypeError
    ensures var t := CfaTeeth.TeethAndPilot(a.diameter, a.centreTube, a.leadType, a.teeth, a.pilot);
      (r.Fail? <==> t.Fail? || t == Ok(CfaTeeth.NoTeeth)) && (r.Ok? ==> r.value == t.value.lines)
  {
    match CfaTeeth.TeethAndPilot(a.diameter, a.centreTube, a.leadType, a.teeth, a.pilot)
    case Fail(e) => Fail(e)
    case Ok(Items(lines)) => Ok(lines)
    case Ok(NoTeeth) => Fail(TypeError)
  }

  /** `base_coupling_at2`: the couplings, base plate and tubes, led by the drive head's female coupling. */
  function BaseOf(a: Attrs): (r: seq<Line>)
    ensures r != [] && r[0] == CfaCoupling.CouplingLine(CfaCoupling.FemaleCoupling(a.driveHead))
  {
    var tube := CfaCoupling.CentreTubeItems(a.centreTube, a.innerTube);
    CfaCoupling.DriveHeadParts(a.cfaType, a.leadType, a.driveHead, a.centreTube, a.innerTube, a.pilot,
                               ZedName(a), CfaCoupling.ElbowName(tube), a.lengthM)
  }

  /** `cfa_stock_flights_at4`: the lead, carrier and coupling flights; none with the Override BOM set. */
  function FlightsOf(a: Attrs, inCatalogue: string -> bool): (r: Result<seq<Line>>)
    ensures r.Ok? && a.overrideBom != "" ==> r.value == []
  {
    CfaFlights.LeadCarrierCouplingFlights(a.cfaType, a.leadType, a.centreTube, a.flights, a.lengthM,
                                          a.driveHead, a.overrideBom, inCatalogue)
  }

  /** The groups every builder of a variant asks its helpers for. */
  function GroupsOf(a: Attrs, inCatalogue: string -> bool): Groups
  {
    Groups(BaseOf(a),
FlightsOf(a, inCatalogue), TeethLines(a), CfaCoupling.CentreTubeItems(a.centreTube, a.innerTube))
  }

  /** The `combination` list of a lead builder. */
  function Join(g: Groups, tail: seq<Line>): seq<Line>
    requires g.flights.Ok? && g.teeth.Ok?
  {
    g.base + g.flights.value + g.teeth.value + g.tube + tail
  }

  /**
   * The lead builders' common shape: the flights raise first, then the
   * teeth; otherwise the named lines of the groups in order, ending with
   * the builder's own `tail`.
   */
  function LeadBill(g: Groups, tail: seq<Line>): (r: Result<seq<Line>>)
    ensures g.flights.Fail? ==> r == Fail(g.flights.error)
    ensures g.flights.Ok? && g.teeth.Fail? ==> r == Fail(g.teeth.error)
    ensures r.Ok? <==> g.flights.Ok? && g.teeth.Ok?
    ensures r.Ok? ==> r.value == KeepNamed(Join(g, tail))
  {
    match g.flights
    case Fail(e) => Fail(e)
    case Ok(_) =>
      match g.teeth
      case Fail(e) => Fail(e)
      case Ok(_) => Ok(KeepNamed(Join(g, tail)))
  }

  // ---------------------------------------------------------------- the five builders

  /** `_get_cfa_dual_taper_rock`: couplings and tubes, flights, teeth and pilot, centre-tube parts. */
  function DualTaperRock(g: Groups): (r: Result<seq<Line>>)
    ensures r == LeadBill(g, [])
  {
    LeadBill(g, [])
  }

  /** `_get_cfa_zed`: as a rock lead, with the ZED centre and stiffeners at the end. */
  function Zed(g: Groups, zed: seq<Line>): (r: Result<seq<Line>>)
    ensures r == LeadBill(g, zed)
  {
    LeadBill(g, zed)
  }

  /** The Single Cut profiling part: the diameter and the centre tube's `OD` number, "" without one. */
  function ProfilingName(diameter: int, centreTube: string): (r: string)
    ensures r != ""
    ensures SearchNumber(centreTube, "OD").None? ==>
      r == "Profiling - CFA Single Cut " + IntText(diameter) + "mm Diameter x Flight - OD280 ID P330 T32 RH"
    ensures SearchNumber(centreTube, "OD").Some? ==>
      r == "Profiling - CFA Single Cut " + IntText(diameter) + "mm Diameter x Flight - OD280 ID"
           + NatText(SearchNumber(centreTube, "OD").value) + " P330 T32 RH"
  {
    var id := match SearchNumber(centreTube, "OD") case None => "" case Some(n) => NatText(n);
    "Profiling - CFA Single Cut " + IntText(diameter) + "mm Diameter x Flight - OD280 ID" + id + " P330 T32 RH"
  }

  /** `_get_cfa_single_cut`: as a rock lead, with the profiling part at the end. */
  function SingleCut(g: Groups, profiling: Line): (r: Result<seq<Line>>)
    ensures r == LeadBill(g, [profiling])
  {
    LeadBill(g, [profiling])
  }

  /**
   * The stiffening-ring entry of the Intermediate and Extension builders:
   * `ctube_at3[3] if len(ctube_at3) <= 2 else (None, 0)`, which indexes past
   * the end exactly when it indexes at all.
   */
  function RingEntry(tube: seq<Line>): (r: Result<Line>)
    ensures r.Fail? <==> |tube| <= 2
    ensures r.Fail? ==> r.error == IndexError
    ensures r.Ok? ==> !Named(r.value)
  {
    if |tube| <= 2 then Fail(IndexError) else Ok(NoLine)
  }

  /**
   * `_get_cfa_intermediate`: couplings and tubes and flights; the flights
   * raise first, then the ring entry, which raises `IndexError` whenever
   * the centre tube has two parts or fewer.
   */
  function Intermediate(g: Groups): (r: Result<seq<Line>>)
    ensures g.flights.Fail? ==> r == Fail(g.flights.error)
    ensures g.flights.Ok? ==> (r.Fail? <==> |g.tube| <= 2)
    ensures g.flights.Ok? && r.Fail? ==> r.error == IndexError
    ensures r.Ok? ==> r.value == KeepNamed(g.base + g.flights.value)
  {
    match g.flights
    case Fail(e) => Fail(e)
    case Ok(flights) =>
      match RingEntry(g.tube)
      case Fail(e) => Fail(e)
      case Ok(ring) =>
        KeepAppend(g.base + flights, [ring], Named);
        Ok(KeepNamed(g.base + flights + [ring]))
  }

  /**
   * `_get_cfa_extension`: couplings and tubes only; the ring entry raises
   * `IndexError` whenever the centre tube has two parts or fewer.
   */
  function Extension(g: Groups): (r: Result<seq<Line>>)
    ensures r.Fail? <==> |g.tube| <= 2
    ensures r.Fail? ==> r.error == IndexError
    ensures r.Ok? ==> r.value == KeepNamed(g.base)
  {
    match RingEntry(g.tube)
    case Fail(e) => Fail(e)
    case Ok(ring) =>
      KeepAppend(g.base, [ring], Named);
      Ok(KeepNamed(g.base + [ring]))
  }

  /**
   * `_get_cfa_auger_components`, given the groups its builders collect: a
   * Lead goes to its lead type's builder (none for an unlisted lead type),
   * an Intermediate to its builder, and every other type to the Extension
   * builder; whatever it builds holds named lines only.
   */
  function Components(a: Attrs, g: Groups): (r: Result<seq<Line>>)
    ensures a.cfaType == "Lead" && a.leadType in RockLeads ==> r == DualTaperRock(g)
    ensures a.cfaType == "Lead" && a.leadType in ZedLeads ==> r == Zed(g, CfaTeeth.ZedCentre(a.centreTube, a.diameter))
    ensures a.cfaType == "Lead" && a.leadType == "Single Cut" ==>
      r == SingleCut(g, Line(ProfilingName(a.diameter, a.centreTube), 1.0))
    ensures a.cfaType == "Lead" && a.leadType !in RockLeads && a.leadType !in ZedLeads && a.leadType != "Single Cut" ==>
      r == Ok([])
    ensures a.cfaType == "Intermediate" ==> r == Intermediate(g)
    ensures a.cfaType != "Lead" && a.cfaType != "Intermediate" ==> r == Extension(g)
    ensures r.Ok? ==> forall l :: l in r.value ==> Named(l)
  {
    if a.cfaType == "Lead" then
      if a.leadType in RockLeads then DualTaperRock(g)
      else if a.leadType in ZedLeads then Zed(g, CfaTeeth.ZedCentre(a.centreTube, a.diameter))
      else if a.leadType == "Single Cut" then SingleCut(g, Line(ProfilingName(a.diameter, a.centreTube), 1.0))
      else Ok([])
    else if a.cfaType == "Intermediate" then Intermediate(g)
    else Extension(g)
  }

  /**
   * `_get_cfa_auger_components` of a variant whose Auger Diameter attribute
   * is `diameter`: reading it raises `AttributeError` without a digit and
   * `ValueError` when its number has a point, before any builder runs;
   * otherwise the builders see the number read.
   */
  function AugerComponents(a: Attrs, diameter: string, inCatalogue: string -> bool): (r: Result<seq<Line>>)
    ensures IntOfFirstNumber(diameter).Fail? ==> r == Fail(IntOfFirstNumber(diameter).error)
    ensures IntOfFirstNumber(diameter).Ok? ==>
      var read := a.(diameter := IntOfFirstNumber(diameter).value);
      r == Components(read, GroupsOf(read, inCatalogue))
    ensures r.Ok? ==> forall l :: l in r.value ==> Named(l)
  {
    match IntOfFirstNumber(diameter)
    case Fail(e) => Fail(e)
    case Ok(n) =>
      var read := a.(diameter := n);
      Components(read, GroupsOf(read, inCatalogue))
  }

  /** A diameter attribute without a digit, or with a point in its number, makes every CFA variant raise. */
  lemma DiameterUnreadable(a: Attrs, inCatalogue: string -> bool, n: nat, rest: string)
    ensures AugerComponents(a, "", inCatalogue) == Fail(AttributeError)
    ensures AugerComponents(a, NatText(n) + ("." + rest), inCatalogue) == Fail(ValueError)
  {
    IntOfFirstNumberPoint("", n, rest);
    assert "" + NatText(n) + ("." + rest) == NatText(n) + ("." + rest);
  }

  // ---------------------------------------------------------------- what the builders promise

  /** Filtering keeps a named last line last. */
  lemma {:induction false} KeepNamedLast(s: seq<Line>, last: Line)
    requires Named(last)
    ensures var k := KeepNamed(s + [last]); k != [] && k[|k| - 1] == last
  {
    KeepAppend(s, [last], Named);
    KeepAllPass([last], Named);
  }

  /** Filtering keeps a named first line first. */
  lemma {:induction false} KeepNamedFirst(s: seq<Line>, rest: seq<Line>)
    requires s != [] && Named(s[0])
    ensures var k := KeepNamed(s + rest); k != [] && k[0] == s[0]
  {
    assert s + rest == [s[0]] + (s[1..] + rest);
    KeepAppend([s[0]], s[1..] + rest, Named);
    KeepAllPass([s[0]], Named);
  }

  /** A lead's bill ends with its own last part whenever that part is named. */
  lemma {:induction false} LeadBillEndsWithTail(g: Groups, tail: seq<Line>)
    requires tail != [] && Named(tail[|tail| - 1])
    requires LeadBill(g, tail).Ok?
    ensures var bill := LeadBill(g, tail).value; bill != [] && bill[|bill| - 1] == tail[|tail| - 1]
  {
    var n := |tail| - 1;
    var head := g.base + g.flights.value + g.teeth.value + g.tube + tail[..n];
    assert Join(g, tail) == head + [tail[n]];
    KeepNamedLast(head, tail[n]);
  }

  /** A Single Cut bill always ends with its profiling part. */
  lemma SingleCutEndsWithProfiling(a: Attrs, g: Groups)
    requires a.cfaType == "Lead" && a.leadType == "Single Cut"
    requires Components(a, g).Ok?
    ensures var bill := Components(a, g).value;
      bill != [] && bill[|bill| - 1] == Line(ProfilingName(a.diameter, a.centreTube), 1.0)
  {
    LeadBillEndsWithTail(g, [Line(ProfilingName(a.diameter, a.centreTube), 1.0)]);
  }

  /** A ZED bill always ends with two flight stiffeners, the under-600 kind exactly below 600mm. */
  lemma ZedEndsWithStiffeners(a: Attrs, g: Groups)
    requires a.cfaType == "Lead" && a.leadType in ZedLeads
    requires Components(a, g).Ok?
    ensures var bill := Components(a, g).value;
      bill != [] && bill[|bill| - 1].qty == 2.0
      && (bill[|bill| - 1].name == CfaTeeth.StiffenerUnder600 <==> a.diameter < 600)
      && (bill[|bill| - 1].name == CfaTeeth.Stiffener600Up <==> a.diameter >= 600)
  {
    var zed := CfaTeeth.ZedCentre(a.centreTube, a.diameter);
    assert a.leadType !in RockLeads;
    assert Named(zed[1]) by {
      if a.diameter < 600 { assert zed[1].name == CfaTeeth.StiffenerUnder600; }
      else { assert zed[1].name == CfaTeeth.Stiffener600Up; }
    }
    LeadBillEndsWithTail(g, zed);
  }

  /**
   * A dispatched lead never meets the `(None, 0)` teeth pair: a rock or
   * Single Cut lead raises only through its flights, a ZED lead also when
   * its centre tube has no `OD<n>`.
   */
  lemma DispatchedLeadRaises(a: Attrs, g: Groups)
    requires a.cfaType == "Lead" && g.teeth == TeethLines(a)
    ensures a.leadType in RockLeads || a.leadType == "Single Cut" ==> (Components(a, g).Fail? <==> g.flights.Fail?)
    ensures a.leadType in ZedLeads ==>
      (Components(a, g).Fail? <==> g.flights.Fail? || SearchNumber(a.centreTube, "OD").None?)
  {
    if a.leadType in ZedLeads {
      assert a.leadType in CfaTeeth.ZedLeads && a.leadType !in RockLeads;
    } else if a.leadType in RockLeads || a.leadType == "Single Cut" {
      assert a.leadType !in CfaTeeth.ZedLeads;
    }
  }

  /** A lead's bill with no flights holds only its couplings and tubes, teeth, centre-tube parts and own parts. */
  lemma {:induction false} NoFlightsBill(g: Groups, tail: seq<Line>)
    requires g.flights == Ok([]) && g.teeth.Ok?
    ensures LeadBill(g, tail) == Ok(KeepNamed(g.base + g.teeth.value + g.tube + tail))
  {
    assert g.base + g.flights.value == g.base;
  }

  /** With the Override BOM set the flight group is empty, so a lead's bill holds no flight. */
  lemma OverrideDropsFlights(a: Attrs, inCatalogue: string -> bool, g: Groups, tail: seq<Line>)
    requires a.overrideBom != "" && g.flights == FlightsOf(a, inCatalogue)
    requires LeadBill(g, tail).Ok?
    ensures LeadBill(g, tail).value == KeepNamed(g.base + g.teeth.value + g.tube + tail)
  {
    NoFlightsBill(g, tail);
  }

  /** A lead's bill starts with its first coupling whenever that is named. */
  lemma {:induction false} LeadBillStartsWithBase(g: Groups, tail: seq<Line>)
    requires g.base != [] && Named(g.base[0])
    requires LeadBill(g, tail).Ok?
    ensures var bill := LeadBill(g, tail).value; bill != [] && bill[0] == g.base[0]
  {
    var rest := g.flights.value + g.teeth.value + g.tube + tail;
    assert Join(g, tail) == g.base + rest;
    KeepNamedFirst(g.base, rest);
  }

  /** Whatever the dispatcher builds starts with the first coupling whenever that is named. */
  lemma BillStartsWithBase(a: Attrs, g: Groups)
    requires g.base != [] && Named(g.base[0])
    requires Components(a, g).Ok?
    requires a.cfaType != "Lead" || a.leadType in RockLeads || a.leadType in ZedLeads || a.leadType == "Single Cut"
    ensures var bill := Components(a, g).value; bill != [] && bill[0] == g.base[0]
  {
    if a.cfaType == "Lead" {
      if a.leadType in RockLeads {
        LeadBillStartsWithBase(g, []);
      } else if a.leadType in ZedLeads {
        LeadBillStartsWithBase(g, CfaTeeth.ZedCentre(a.centreTube, a.diameter));
      } else {
        LeadBillStartsWithBase(g, [Line(ProfilingName(a.diameter, a.centreTube), 1.0)]);
      }
    } else if a.cfaType == "Intermediate" {
      KeepNamedFirst(g.base, g.flights.value);
    } else {
      KeepNamedFirst(g.base, []);
      assert g.base + [] == g.base;
    }
  }

  /**
   * On a listed drive head, every bill the dispatcher builds starts with the
   * head's female coupling.
   */
  lemma BillStartsWithFemaleCoupling(a: Attrs, g: Groups)
    requires CfaCoupling.FemaleCoupling(a.driveHead).Some? && g.base == BaseOf(a)
    requires Components(a, g).Ok?
    requires a.cfaType != "Lead" || a.leadType in RockLeads || a.leadType in ZedLeads || a.leadType == "Single Cut"
    ensures var bill := Components(a, g).value;
      bill != [] && bill[0] == Line(CfaCoupling.FemaleCoupling(a.driveHead).value.name, 1.0)
  {
    BillStartsWithBase(a, g);
  }
}
