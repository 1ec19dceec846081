/**
 * The drilling-barrel and cleaning-bucket bills of materials
 * (product_product.py, `_create_drilling_barrel_component`,
 * `_get_cleaning_bucket_components` and the six builders they dispatch to;
 * bom_automation_v2.py holds an identical copy).
 *
 * Every builder lists its candidate lines in a fixed order, a line being
 * `None` when its part does not apply, and keeps the lines that are not
 * `None`; a drilling barrel then appends the teeth of its front end
 * unfiltered.
 */
module Barrel {
  import opened BomWrappers
  import opened PyNum
  import opened Bom
  import opened RangeTable
  import opened PyText
  import opened PyRegex
  import opened BarrelParts
  import opened BarrelFrontEnd

  /** The attribute values a barrel or bucket variant is built from ("" when absent). */
  datatype Attrs = Attrs(product: string, diameter: string, height: string, opening: string,
                         blades: string, head: string, kind: string, custom: string,
                         frontEnd: string, teeth: string)

  /** The numbers read from the attributes. */
  datatype Reading = Reading(dText: string, d: nat, head: string, height: nat)

  /**
   * The diameter's first digits (an `IndexError` when it has none), the
   * drive head's first digits ("" when none) and the height's first number
   * (0 when none).
   */
  function Read(a: Attrs): (r: Result<Reading>)
    ensures r.Fail? <==> FirstNumber(a.diameter).None?
    ensures r.Fail? ==> r.error == IndexError
    ensures r.Ok? ==> FirstNumber(a.diameter) == Some(r.value.d) && AllDigits(r.value.dText) && ParseNat(r.value.dText) == r.value.d
  {
    match FirstDigits(a.diameter)
    case None => Fail(IndexError)
    case Some(dText) =>
      var head := match FirstDigits(a.head) case None => "" case Some(h) => h;
      var height := match FirstNumber(a.height) case None => 0 case Some(n) => n;
      Ok(Reading(dText, ParseNat(dText), head, height))
  }

  /** The profiling combination as the profiling line quotes it: " - " and the combination, or "". */
  function CombinationSuffix(a: Attrs): string
  {
    var c := ProfCombination(HeadOf(a.head), TypeOf(a.kind));
    if c != "" then " - " + c else ""
  }

  /** The profiling program of a drilling barrel. */
  function DrillProfiling(a: Attrs): string
  {
    a.product + " " + a.diameter + " x " + a.height + " - " + a.opening + " - " + a.blades + " - "
    + a.custom + " - " + a.frontEnd + " - " + a.teeth + " " + CombinationSuffix(a)
  }

  /** The profiling program of a cleaning bucket. */
  function BucketProfiling(a: Attrs): string
  {
    a.product + " " + a.diameter + " x " + a.height + " - " + a.opening + " - " + a.blades + " - "
    + a.custom + " " + CombinationSuffix(a)
  }

  /** The lines every variant opens with: profiling, gussets, drive head, ears and pivot kit. */
  function Leading(profiling: string, a: Attrs, rd: Reading, kit: string): seq<Option<Line>>
  {
    var h := HeadOf(a.head);
    [Some(Line("Profiling - " + profiling, 1.0)), Some(Line(GussetName(a.head, rd.head, rd.dText), 4.0))]
      + [Opt(DrivePart(h), 1.0), EarsLine(h), Opt(kit, 1.0)]
  }

  /** A hinge pin bar found in a table, kept when it names a part. */
  function PinBar(found: Option<Line>): (r: Option<Line>)
    ensures r.Some? <==> found.Some? && Named(found.value)
    ensures r.Some? ==> r.value == found.value
  {
    match found
    case None => None
    case Some(l) => Opt(l.name, l.qty)
  }

  /**
   * The hinge lines of a variant with a handle: hinge, two bushes, the pin
   * bar, the handle bar of length `handleQty`, three of each locking washer.
   * Without a hinge set only the pin bar can be left.
   */
  function HandleHinge(hs: Option<HingeSet>, pinBar: Option<Line>, handleQty: real): seq<Option<Line>>
  {
    match hs
    case None => [pinBar]
    case Some(s) =>
      [Opt(s.hinge, 1.0), Opt(s.bush, 2.0), pinBar,
       if handleQty != 0.0 then Opt(s.handleBar, handleQty) else None,
       Opt(s.lock1, 3.0), Opt(s.lock2, 3.0)]
  }

  /** The hinge lines of a variant with a plunger only: hinge, two bushes, the pin bar. */
  function PlungerHinge(hs: Option<BarrelParts.PlungerHinge>, pinBar: Option<Line>): seq<Option<Line>>
  {
    match hs
    case None => [pinBar]
    case Some(s) => [Opt(s.hinge, 1.0), Opt(s.bush, 2.0), pinBar]
  }

  const Bush := "Plunger Bush - 110mm OD 75mm ID - 100mm long"
  const Spring := "Plunger Spring"
  const EndCap := "Plunger End Cap"
  const Bolt := "Hex Bolt - M30 x 130mm GR10.9"
  const Nut := "Nut - M30 Coneloc"
  const WearPad := "Barrel Wear Pads"

  /** Plunger parts come in pairs, and the bolts and nuts in sixes, from 1850mm up. */
  function PlungerQty(d: nat): real { if d >= 1850 then 2.0 else 1.0 }
  function BoltQty(d: nat): real { if d >= 1850 then 6.0 else 3.0 }

  /** The plunger lines of a variant with a plunger only: the bar, the parts, bolts and nuts. */
  function PlungerParts(h: DriveHead, d: nat): seq<Option<Line>>
  {
    [Opt(PlungerBarName(PlungerBarLength(h, d)), PlungerQty(d)),
     Some(Line(Bush, PlungerQty(d))), Some(Line(Spring, PlungerQty(d))), Some(Line(EndCap, PlungerQty(d))),
     Some(Line(Bolt, BoltQty(d))), Some(Line(Nut, BoltQty(d)))]
  }

  /** The plunger lines of a variant with both: one bar of `length` and one of each part. */
  function PlungerHandleParts(length: nat): seq<Option<Line>>
  {
    [Opt(PlungerBarName(length), 1.0), Some(Line(Bush, 1.0)), Some(Line(Spring, 1.0)), Some(Line(EndCap, 1.0))]
  }

  /** The closing lines: wear pads, then the two flange channels. */
  function Closing(d: nat, clearance: int): seq<Option<Line>>
    requires clearance == 30 || clearance == 40
  {
    [Some(Line(WearPad, WearPads(d, clearance) as real)), Pcf1(d, clearance), Pcf2(d)]
  }

  /** The hollow bar of a Taper Rock or ZED front end, then the ZED centre. */
  function Extension(a: Attrs, d: nat): seq<Option<Line>>
  {
    var bar := HollowBarExtension(TypeOf(a.kind), HeadOf(a.head), d, a.frontEnd);
    var centre := match ZedCentre(bar, a.frontEnd) case None => None case Some(c) => Opt(c, 1.0);
    (if a.frontEnd == "Taper Rock Front End" || a.frontEnd == "ZED Front End"
     then [Opt(HollowBarName(bar), 1.0)] else []) + [centre]
  }

  /** The teeth a drilling barrel's front end appends. */
  function Teeth(a: Attrs, d: nat): seq<Line>
  {
    var kit := DrillPivotKit(TypeOf(a.kind), HeadOf(a.head), d);
    FrontEndLines(FrontEndOf(a.frontEnd), PivotKitHeadOd(kit), d, TeethOf(a.teeth), a.blades == "Dual Blade")
  }

  /** The profiling and gusset lines are never dropped, so they lead the result. */
  lemma LeadingKept(profiling: string, a: Attrs, rd: Reading, kit: string, rest: seq<Option<Line>>)
    ensures |Present(Leading(profiling, a, rd, kit) + rest)| >= 2
    ensures Present(Leading(profiling, a, rd, kit) + rest)[0] == Line("Profiling - " + profiling, 1.0)
    ensures Present(Leading(profiling, a, rd, kit) + rest)[1] == Line(GussetName(a.head, rd.head, rd.dText), 4.0)
  {
    var h := HeadOf(a.head);
    LeadsWith(Line("Profiling - " + profiling, 1.0), Line(GussetName(a.head, rd.head, rd.dText), 4.0),
      [Opt(DrivePart(h), 1.0), EarsLine(h), Opt(kit, 1.0)], rest);
  }

  /**
   * Every bill lists the drive-head part of a square head, the ears of a
   * 130mm head, its pivot kit when one applies, and, from 2000mm, both
   * flange channels.
   */
  lemma LeadingListed(profiling: string, a: Attrs, rd: Reading, kit: string,
                      hinge: seq<Option<Line>>, clearance: int, tail: seq<Option<Line>>)
    requires clearance == 30 || clearance == 40
    ensures var r := Present(Leading(profiling, a, rd, kit) + hinge + Closing(rd.d, clearance) + tail);
      var h := HeadOf(a.head);
      (SquareHead(h) ==> Line(DrivePart(h), 1.0) in r)
      && (EarsLine(h).Some? ==> EarsLine(h).value in r)
      && (kit != "" ==> Line(kit, 1.0) in r)
      && (rd.d >= 2000 ==> Pcf1(rd.d, clearance).value in r && Pcf2(rd.d).value in r)
  {
    var h := HeadOf(a.head);
    var lead := Leading(profiling, a, rd, kit);
    var closing := Closing(rd.d, clearance);
    var c := lead + hinge + closing + tail;
    assert lead[2] == Opt(DrivePart(h), 1.0) && lead[3] == EarsLine(h) && lead[4] == Opt(kit, 1.0);
    assert forall i :: 0 <= i < |lead| ==> c[i] == lead[i];
    assert forall i :: 0 <= i < |closing| ==> c[|lead| + |hinge| + i] == closing[i];
    assert c[2] in c && c[3] in c && c[4] in c;
    assert c[|lead| + |hinge| + 1] in c && c[|lead| + |hinge| + 2] in c;
  }

  /** Two present lines at the head of a list stay at its head once the absent ones are dropped. */
  lemma LeadsWith(p: Line, g: Line, more: seq<Option<Line>>, rest: seq<Option<Line>>)
    ensures |Present([Some(p), Some(g)] + more + rest)| >= 2
    ensures Present([Some(p), Some(g)] + more + rest)[..2] == [p, g]
  {
    var t := more + rest;
    assert [Some(p), Some(g)] + more + rest == [Some(p)] + ([Some(g)] + t);
    PresentFirst(Some(p), [Some(g)] + t);
    PresentFirst(Some(g), t);
  }

  /**
   * `_get_db_handle`: the drilling barrel with a handle, its teeth appended.
   * It raises `IndexError` when the diameter has no digits.
   */
  function DrillHandle(a: Attrs): (r: Result<seq<Line>>)
    ensures r.Fail? <==> FirstNumber(a.diameter).None?
    ensures r.Ok? ==>
      var d := FirstNumber(a.diameter).value;
      |r.value| >= 2 + |Teeth(a, d)|
      && EndsWith(r.value, Teeth(a, d))
    ensures r.Ok? ==> r.value == DrillHandleLines(a, Read(a).value) + Teeth(a, Read(a).value.d)
  {
    match Read(a)
    case Fail(e) => Fail(e)
    case Ok(rd) =>
      var lines := DrillHandleLines(a, rd);
      assert FirstNumber(a.diameter).value == rd.d;
      WithTeeth(lines, Teeth(a, rd.d));
      Ok(lines + Teeth(a, rd.d))
  }

  /** The drilling barrel with a handle leads with its profiling and gusset lines and lists its wear pads and arrow head. */
  lemma DrillHandleLeads(a: Attrs)
    ensures DrillHandle(a).Ok? ==>
      var r := DrillHandle(a);
      var d := FirstNumber(a.diameter).value;
      r.value[0] == Line("Profiling - " + DrillProfiling(a), 1.0)
      && r.value[1].qty == 4.0
      && Line(WearPad, WearPads(d, 40) as real) in r.value
      && Line(ArrowHead(d), 1.0) in r.value
  {
    match Read(a)
    case Fail(_) =>
    case Ok(rd) =>
      WithTeeth(DrillHandleLines(a, rd), Teeth(a, rd.d));
  }

  /** The lines of a drilling barrel with a handle, before its teeth. */
  function DrillHandleLines(a: Attrs, rd: Reading): (r: seq<Line>)
    ensures |r| >= 2
    ensures r[0] == Line("Profiling - " + DrillProfiling(a), 1.0) && r[1].qty == 4.0
    ensures Line(WearPad, WearPads(rd.d, 40) as real) in r && Line(ArrowHead(rd.d), 1.0) in r
    ensures r == Present(Leading(DrillProfiling(a), a, rd, DrillKit(a, rd)) + DrillHandleRest(a, rd))
  {
    var d := rd.d;
    var rest := DrillHandleRest(a, rd);
    var profiling := DrillProfiling(a);
    var candidates := Leading(profiling, a, rd, DrillKit(a, rd)) + rest;
    LeadingKept(profiling, a, rd, DrillKit(a, rd), rest);
    assert Some(Line(WearPad, WearPads(d, 40) as real)) in candidates;
    assert Some(Line(ArrowHead(d), 1.0)) in candidates;
    Present(candidates)
  }

  /** The drilling pivot kit of a barrel. */
  function DrillKit(a: Attrs, rd: Reading): string
  {
    DrillPivotKit(TypeOf(a.kind), HeadOf(a.head), rd.d)
  }

  /** The bucket pivot kit of a bucket. */
  function BucketKit(a: Attrs, rd: Reading): string
  {
    BucketPivotKit(TypeOf(a.kind), HeadOf(a.head), rd.d)
  }

  /**
   * The lines of a drilling barrel with a handle after the leading ones:
   * hinge, arrow head, wear pads and flange channels, then its extension.
   */
  function DrillHandleRest(a: Attrs, rd: Reading): seq<Option<Line>>
  {
    var d := rd.d;
    HandleHinge(Select(DrillHinges, d), PinBar(Select(DrillHingeBars, d)), HingeHandleBarQty(rd.height, d))
    + [Some(Line(ArrowHead(d), 1.0))] + Closing(d, 40) + Extension(a, d)
  }

  /** `s` ends with the lines of `t`. */
  predicate EndsWith(s: seq<Line>, t: seq<Line>)
  {
    |s| >= |t| && s[|s| - |t|..] == t
  }

  /** Teeth appended to a list end it, and the list's own lines keep their places. */
  lemma WithTeeth(lines: seq<Line>, teeth: seq<Line>)
    ensures |lines + teeth| == |lines| + |teeth|
    ensures EndsWith(lines + teeth, teeth)
    ensures forall i :: 0 <= i < |lines| ==> (lines + teeth)[i] == lines[i]
    ensures forall x :: x in lines ==> x in lines + teeth
  {
  }

  /**
   * `_get_db_plunger`: the drilling barrel with a plunger only, its teeth
   * appended. Bolts, nuts and plunger parts are always listed, doubled from
   * 1850mm up; it has no arrow head.
   */
  function DrillPlunger(a: Attrs): (r: Result<seq<Line>>)
    ensures r.Fail? <==> FirstNumber(a.diameter).None?
    ensures r.Ok? ==>
      var d := FirstNumber(a.diameter).value;
      |r.value| >= 2 + |Teeth(a, d)|
      && EndsWith(r.value, Teeth(a, d))
    ensures r.Ok? ==> r.value == DrillPlungerLines(a, Read(a).value) + Teeth(a, Read(a).value.d)
  {
    match Read(a)
    case Fail(e) => Fail(e)
    case Ok(rd) =>
      var lines := DrillPlungerLines(a, rd);
      assert FirstNumber(a.diameter).value == rd.d;
      WithTeeth(lines, Teeth(a, rd.d));
      Ok(lines + Teeth(a, rd.d))
  }

  /** The drilling barrel with a plunger leads with its profiling and gusset lines and lists its wear pads, plunger bushes, bolts and nuts. */
  lemma DrillPlungerLeads(a: Attrs)
    ensures DrillPlunger(a).Ok? ==>
      var r := DrillPlunger(a);
      var d := FirstNumber(a.diameter).value;
      r.value[0] == Line("Profiling - " + DrillProfiling(a), 1.0)
      && r.value[1].qty == 4.0
      && Line(WearPad, WearPads(d, 40) as real) in r.value
      && Line(Bush, PlungerQty(d)) in r.value
      && Line(Bolt, BoltQty(d)) in r.value && Line(Nut, BoltQty(d)) in r.value
  {
    match Read(a)
    case Fail(_) =>
    case Ok(rd) =>
      WithTeeth(DrillPlungerLines(a, rd), Teeth(a, rd.d));
  }

  /** The lines of a drilling barrel with a plunger, before its teeth. */
  function DrillPlungerLines(a: Attrs, rd: Reading): (r: seq<Line>)
    ensures |r| >= 2
    ensures r[0] == Line("Profiling - " + DrillProfiling(a), 1.0) && r[1].qty == 4.0
    ensures Line(WearPad, WearPads(rd.d, 40) as real) in r && Line(Bush, PlungerQty(rd.d)) in r
    ensures Line(Bolt, BoltQty(rd.d)) in r && Line(Nut, BoltQty(rd.d)) in r
    ensures r == Present(Leading(DrillProfiling(a), a, rd, DrillKit(a, rd)) + DrillPlungerRest(a, rd))
  {
    var d := rd.d;
    var rest := DrillPlungerRest(a, rd);
    var profiling := DrillProfiling(a);
    var candidates := Leading(profiling, a, rd, DrillKit(a, rd)) + rest;
    LeadingKept(profiling, a, rd, DrillKit(a, rd), rest);
    assert Some(Line(WearPad, WearPads(d, 40) as real)) in candidates;
    assert Some(Line(Bush, PlungerQty(d))) in candidates;
    assert Some(Line(Bolt, BoltQty(d))) in candidates && Some(Line(Nut, BoltQty(d))) in candidates;
    Present(candidates)
  }

  /**
   * The lines of a drilling barrel with a plunger after the leading ones:
   * plunger hinge, plunger bar and parts, wear pads and flange channels,
   * then its extension.
   */
  function DrillPlungerRest(a: Attrs, rd: Reading): seq<Option<Line>>
  {
    var d := rd.d;
    PlungerHinge(Select(DrillPlungerHinges, d), PinBar(Select(DrillPlungerHingeBars, d)))
    + PlungerParts(HeadOf(a.head), d) + Closing(d, 40) + Extension(a, d)
  }

  /**
   * `_get_db_plunger_handler`: the drilling barrel with a plunger and a
   * handle, its teeth appended. Its profiling text ends in a space, its
   * handle bar takes the smaller allowance, and each plunger part is single.
   */
  function DrillPlungerHandle(a: Attrs): (r: Result<seq<Line>>)
    ensures r.Fail? <==> FirstNumber(a.diameter).None?
    ensures r.Ok? ==>
      var d := FirstNumber(a.diameter).value;
      |r.value| >= 2 + |Teeth(a, d)|
      && EndsWith(r.value, Teeth(a, d))
    ensures r.Ok? ==> r.value == DrillPlungerHandleLines(a, Read(a).value) + Teeth(a, Read(a).value.d)
  {
    match Read(a)
    case Fail(e) => Fail(e)
    case Ok(rd) =>
      var lines := DrillPlungerHandleLines(a, rd);
      assert FirstNumber(a.diameter).value == rd.d;
      WithTeeth(lines, Teeth(a, rd.d));
      Ok(lines + Teeth(a, rd.d))
  }

  /** The drilling barrel with a plunger and a handle leads with its profiling and gusset lines and lists its wear pads, arrow head and single bush. */
  lemma DrillPlungerHandleLeads(a: Attrs)
    ensures DrillPlungerHandle(a).Ok? ==>
      var r := DrillPlungerHandle(a);
      var d := FirstNumber(a.diameter).value;
      r.value[0] == Line("Profiling - " + DrillProfiling(a) + " ", 1.0)
      && r.value[1].qty == 4.0
      && Line(WearPad, WearPads(d, 40) as real) in r.value
      && Line(ArrowHead(d), 1.0) in r.value
      && Line(Bush, 1.0) in r.value
  {
    match Read(a)
    case Fail(_) =>
    case Ok(rd) =>
      WithTeeth(DrillPlungerHandleLines(a, rd), Teeth(a, rd.d));
  }

  /** The lines of a drilling barrel with a plunger and a handle, before its teeth. */
  function DrillPlungerHandleLines(a: Attrs, rd: Reading): (r: seq<Line>)
    ensures |r| >= 2
    ensures r[0] == Line("Profiling - " + DrillProfiling(a) + " ", 1.0) && r[1].qty == 4.0
    ensures Line(WearPad, WearPads(rd.d, 40) as real) in r && Line(ArrowHead(rd.d), 1.0) in r
    ensures Line(Bush, 1.0) in r
    ensures r == Present(Leading(DrillProfiling(a) + " ", a, rd, DrillKit(a, rd)) + DrillPlungerHandleRest(a, rd))
  {
    var rest := DrillPlungerHandleRest(a, rd);
    var profiling := DrillProfiling(a) + " ";
    var kit := DrillKit(a, rd);
    assert "Profiling - " + profiling == "Profiling - " + DrillProfiling(a) + " ";
    LeadingKept(profiling, a, rd, kit, rest);
    DrillPlungerHandleRestHas(a, rd);
    PresentAppend(Leading(profiling, a, rd, kit), rest);
    Present(Leading(profiling, a, rd, kit) + rest)
  }

  /**
   * The lines of a drilling barrel with a plunger and a handle after the
   * leading ones: hinge, arrow head, plunger bar and parts, wear pads and
   * flange channels, then its extension.
   */
  function DrillPlungerHandleRest(a: Attrs, rd: Reading): seq<Option<Line>>
  {
    var d := rd.d;
    var h := HeadOf(a.head);
    HandleHinge(Select(DrillHinges, d), PinBar(Select(DrillHingeBars, d)), HandleBarQty(rd.height, d))
    + [Some(Line(ArrowHead(d), 1.0))] + PlungerHandleParts(PlungerBarLength(h, d))
    + Closing(d, 40) + Extension(a, d)
  }

  lemma DrillPlungerHandleRestHas(a: Attrs, rd: Reading)
    ensures Line(WearPad, WearPads(rd.d, 40) as real) in Present(DrillPlungerHandleRest(a, rd))
    ensures Line(ArrowHead(rd.d), 1.0) in Present(DrillPlungerHandleRest(a, rd))
    ensures Line(Bush, 1.0) in Present(DrillPlungerHandleRest(a, rd))
  {
    var d := rd.d;
    var hinge := HandleHinge(Select(DrillHinges, d), PinBar(Select(DrillHingeBars, d)), HandleBarQty(rd.height, d));
    var arrow := [Some(Line(ArrowHead(d), 1.0))];
    var parts := PlungerHandleParts(PlungerBarLength(HeadOf(a.head), d));
    var closing := Closing(d, 40);
    assert Some(Line(ArrowHead(d), 1.0)) in arrow;
    assert parts[1] == Some(Line(Bush, 1.0));
    assert closing[0] == Some(Line(WearPad, WearPads(d, 40) as real));
  }

  /**
   * The lines of a cleaning bucket with a handle after the leading ones,
   * given its hinge set: hinge, arrow head, wear pads and flange channels.
   */
  function BucketHandleRest(rd: Reading, hs: Option<HingeSet>): seq<Option<Line>>
  {
    var d := rd.d;
    HandleHinge(hs, PinBar(Select(BucketHingeBars, d)), HingeHandleBarQty(rd.height, d))
    + [Some(Line(ArrowHead(d), 1.0))] + Closing(d, 30)
  }

  lemma BucketHandleRestHas(rd: Reading, hs: Option<HingeSet>)
    ensures Line(WearPad, WearPads(rd.d, 30) as real) in Present(BucketHandleRest(rd, hs))
    ensures Line(ArrowHead(rd.d), 1.0) in Present(BucketHandleRest(rd, hs))
  {
    var d := rd.d;
    var arrow := [Some(Line(ArrowHead(d), 1.0))];
    var closing := Closing(d, 30);
    assert Some(Line(ArrowHead(d), 1.0)) in arrow;
    assert closing[0] == Some(Line(WearPad, WearPads(d, 30) as real));
  }

  /** The lines of a cleaning bucket with a handle, given its hinge set. */
  function BucketHandleLines(a: Attrs, rd: Reading, hs: Option<HingeSet>): (r: seq<Line>)
    ensures |r| >= 2
    ensures r[0] == Line("Profiling - " + BucketProfiling(a), 1.0)
    ensures r[1].qty == 4.0
    ensures Line(WearPad, WearPads(rd.d, 30) as real) in r
    ensures Line(ArrowHead(rd.d), 1.0) in r
    ensures r == Present(Leading(BucketProfiling(a), a, rd, BucketKit(a, rd)) + BucketHandleRest(rd, hs))
  {
    var kit := BucketKit(a, rd);
    var lead := Leading(BucketProfiling(a), a, rd, kit);
    var rest := BucketHandleRest(rd, hs);
    LeadingKept(BucketProfiling(a), a, rd, kit, rest);
    BucketHandleRestHas(rd, hs);
    PresentAppend(lead, rest);
    Present(lead + rest)
  }

  /**
   * `_get_cb_handle`: the cleaning bucket with a handle. Unlike its
   * siblings it does not set the hinge parts beforehand, so from 5000mm,
   * where no hinge set applies, it raises `UnboundLocalError`.
   */
  function BucketHandle(a: Attrs): (r: Result<seq<Line>>)
    ensures r.Fail? <==> FirstNumber(a.diameter).None? || FirstNumber(a.diameter).value >= 5000
    ensures r.Fail? ==> r.error == (if FirstNumber(a.diameter).None? then IndexError else UnboundLocalError)
    ensures r.Ok? ==>
      var d := FirstNumber(a.diameter).value;
      |r.value| >= 2
      && r.value[0] == Line("Profiling - " + BucketProfiling(a), 1.0)
      && r.value[1].qty == 4.0
      && Line(WearPad, WearPads(d, 30) as real) in r.value
      && Line(ArrowHead(d), 1.0) in r.value
    ensures r.Ok? ==> r.value == BucketHandleLines(a, Read(a).value, Select(BucketHinges, Read(a).value.d))
  {
    match Read(a)
    case Fail(e) => Fail(e)
    case Ok(rd) =>
      var hs := Select(BucketHinges, rd.d);
      HingeTablesResolve(rd.d);
      if hs.None? then Fail(UnboundLocalError)
      else Ok(BucketHandleLines(a, rd, hs))
  }

  /**
   * `_get_cb_handle` with its hinge parts set to `None` beforehand, as its
   * siblings do: past 5000mm the bucket is built without hinge parts.
   */
  function BucketHandleIntended(a: Attrs): (r: Result<seq<Line>>)
    ensures r.Fail? <==> FirstNumber(a.diameter).None?
    ensures r.Ok? ==>
      var d := FirstNumber(a.diameter).value;
      |r.value| >= 2
      && r.value[0] == Line("Profiling - " + BucketProfiling(a), 1.0)
      && r.value[1].qty == 4.0
      && Line(WearPad, WearPads(d, 30) as real) in r.value
      && Line(ArrowHead(d), 1.0) in r.value
    ensures r.Ok? ==> r.value == BucketHandleLines(a, Read(a).value, Select(BucketHinges, Read(a).value.d))
  {
    match Read(a)
    case Fail(e) => Fail(e)
    case Ok(rd) => Ok(BucketHandleLines(a, rd, Select(BucketHinges, rd.d)))
  }

  /**
   * The two agree below 5000mm; from there the source raises where its
   * intended reading still lists the bucket.
   */
  lemma BucketHandleUnbound(a: Attrs)
    requires FirstNumber(a.diameter).Some?
    ensures FirstNumber(a.diameter).value < 5000 ==> BucketHandle(a) == BucketHandleIntended(a)
    ensures FirstNumber(a.diameter).value >= 5000 ==>
      BucketHandle(a) == Fail(UnboundLocalError) && BucketHandleIntended(a).Ok?
  {
    var rd := Read(a).value;
    HingeTablesResolve(rd.d);
  }

  /**
   * `_get_cb_plunger`: the cleaning bucket with a plunger only. Bolts, nuts
   * and plunger parts are always listed, doubled from 1850mm up; it has no
   * arrow head.
   */
  function BucketPlunger(a: Attrs): (r: Result<seq<Line>>)
    ensures r.Fail? <==> FirstNumber(a.diameter).None?
    ensures r.Ok? ==>
      var d := FirstNumber(a.diameter).value;
      |r.value| >= 2
      && r.value[0] == Line("Profiling - " + BucketProfiling(a), 1.0)
      && r.value[1].qty == 4.0
      && Line(WearPad, WearPads(d, 30) as real) in r.value
      && Line(Bush, PlungerQty(d)) in r.value
      && Line(Bolt, BoltQty(d)) in r.value && Line(Nut, BoltQty(d)) in r.value
    ensures r.Ok? ==>
      var rd := Read(a).value;
      r.value == Present(Leading(BucketProfiling(a), a, rd, BucketKit(a, rd)) + BucketPlungerRest(a, rd))
  {
    match Read(a)
    case Fail(e) => Fail(e)
    case Ok(rd) =>
      var d := rd.d;
      var kit := BucketKit(a, rd);
      var rest := BucketPlungerRest(a, rd);
      var candidates := Leading(BucketProfiling(a), a, rd, kit) + rest;
      LeadingKept(BucketProfiling(a), a, rd, kit, rest);
      assert Some(Line(WearPad, WearPads(d, 30) as real)) in candidates;
      assert Some(Line(Bush, PlungerQty(d))) in candidates;
      assert Some(Line(Bolt, BoltQty(d))) in candidates && Some(Line(Nut, BoltQty(d))) in candidates;
      Ok(Present(candidates))
  }

  /**
   * The lines of a cleaning bucket with a plunger after the leading ones:
   * plunger hinge, plunger bar and parts, wear pads and flange channels.
   */
  function BucketPlungerRest(a: Attrs, rd: Reading): seq<Option<Line>>
  {
    var d := rd.d;
    PlungerHinge(Select(BucketPlungerHinges, d), PinBar(Select(BucketPlungerHingeBars, d)))
    + PlungerParts(HeadOf(a.head), d) + Closing(d, 30)
  }

  /**
   * The lines of a cleaning bucket with a plunger and a handle after the
   * leading ones: hinge, arrow head, plunger bar and parts, wear pads and
   * flange channels.
   */
  function BucketPlungerHandleRest(a: Attrs, rd: Reading): seq<Option<Line>>
  {
    var d := rd.d;
    HandleHinge(Select(BucketHinges, d), PinBar(Select(BucketHingeBars, d)), HandleBarQty(rd.height, d))
    + [Some(Line(ArrowHead(d), 1.0))] + PlungerHandleParts(PlungerHandlerBarLength(HeadOf(a.head), d)) + Closing(d, 30)
  }

  /**
   * `_get_cb_plunger_handler`: the cleaning bucket with a plunger and a
   * handle: the handle bar takes the smaller allowance, the plunger bar
   * follows `_get_plunger_handler_bar`, and each plunger part is single.
   */
  function BucketPlungerHandle(a: Attrs): (r: Result<seq<Line>>)
    ensures r.Fail? <==> FirstNumber(a.diameter).None?
    ensures r.Ok? ==>
      var d := FirstNumber(a.diameter).value;
      |r.value| >= 2
      && r.value[0] == Line("Profiling - " + BucketProfiling(a), 1.0)
      && r.value[1].qty == 4.0
      && Line(WearPad, WearPads(d, 30) as real) in r.value
      && Line(ArrowHead(d), 1.0) in r.value
      && Line(Bush, 1.0) in r.value
    ensures r.Ok? ==>
      var rd := Read(a).value;
      r.value == Present(Leading(BucketProfiling(a), a, rd, BucketKit(a, rd)) + BucketPlungerHandleRest(a, rd))
  {
    match Read(a)
    case Fail(e) => Fail(e)
    case Ok(rd) =>
      var d := rd.d;
      var kit := BucketKit(a, rd);
      var rest := BucketPlungerHandleRest(a, rd);
      var candidates := Leading(BucketProfiling(a), a, rd, kit) + rest;
      LeadingKept(BucketProfiling(a), a, rd, kit, rest);
      assert Some(Line(WearPad, WearPads(d, 30) as real)) in candidates;
      assert Some(Line(ArrowHead(d), 1.0)) in candidates;
      assert Some(Line(Bush, 1.0)) in candidates;
      Ok(Present(candidates))
  }

  /** `_create_drilling_barrel_component`: the builder of the opening type, nothing for any other. */
  function DrillingBarrel(a: Attrs): (r: Result<seq<Line>>)
    ensures a.opening == "Plunger & Handle" ==> r == DrillPlungerHandle(a)
    ensures a.opening == "Plunger" ==> r == DrillPlunger(a)
    ensures a.opening == "Handle" ==> r == DrillHandle(a)
    ensures a.opening !in ["Plunger & Handle", "Plunger", "Handle"] ==> r == Ok([])
  {
    if a.opening == "Plunger & Handle" then DrillPlungerHandle(a)
    else if a.opening == "Plunger" then DrillPlunger(a)
    else if a.opening == "Handle" then DrillHandle(a)
    else Ok([])
  }

  /** `_get_cleaning_bucket_components`: the builder of the opening type, nothing for any other. */
  function CleaningBucket(a: Attrs): (r: Result<seq<Line>>)
    ensures a.opening == "Plunger & Handle" ==> r == BucketPlungerHandle(a)
    ensures a.opening == "Plunger" ==> r == BucketPlunger(a)
    ensures a.opening == "Handle" ==> r == BucketHandle(a)
    ensures a.opening !in ["Plunger & Handle", "Plunger", "Handle"] ==> r == Ok([])
  {
    if a.opening == "Plunger & Handle" then BucketPlungerHandle(a)
    else if a.opening == "Plunger" then BucketPlunger(a)
    else if a.opening == "Handle" then BucketHandle(a)
    else Ok([])
  }
}
