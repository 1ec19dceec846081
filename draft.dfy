/**
 * The early extension-bar and high-tensile-adapter helpers of
 * bom_automationv2.py: the drive-head parts of an adapter, the centre tube,
 * base plate, gusset and collar of an extension bar. This revision keeps its
 * own tables, smaller than the later ones and keyed differently: the tube
 * and base plate are looked up by drive-head name, the tube's length is cut
 * by head and stub heights only.
 */
module DraftHelpers {
  import opened BomWrappers
  import opened PyNum
  import opened Bom
  import opened AugerParts
  import HighTensileAdapter
  import ExtensionBar

  // ---------------------------------------------------------------- adapter drive head

  /** `female_map`: the female part of each drive. */
  const FemaleParts: seq<(string, string)> := [
      ("3.5\" API Coupling", "3.5\" API Female coupling"),
      ("2\" Hex Coupling", "2\" Hex Coupling - Female"),
      ("3\" Hex Coupling", "3\" Hex Coupling - Female"),
      ("35TM Coupling", "35TM Coupling - Female"),
      ("53TM Coupling", "53TM Coupling - Female"),
      ("Carrendeena 5\" Coupling", "Carrendeena 5\" Coupling - Female"),
      ("Casagrande 5\" Coupling", "Casagrande 5\" Coupling - Female"),
      ("HD4 Coupling", "HD4 Coupling - Female"),
      ("HD5 Coupling", "HD5 Coupling - Female"),
      ("25XHD5 Coupling", "25XHD5 Coupling - Female"),
      ("XHD5 Coupling", "XHD5 Coupling - Female"),
      ("XHD5 Mini Coupling", "XHD5 Mini Coupling - Female"),
      ("Llamada Coupling", "Llamada Coupling - Female"),
      ("MAIT175 Coupling", "MAIT175 Coupling - Female"),
      ("MAIT200 Coupling", "MAIT200 Coupling - Female"),
      ("SW80 Coupling", "TB80/SW80 Coupling - Female"),
      ("SW110 Coupling", "SW110 Female Coupling"),
      ("SW150 EMDE Coupling", "SW150 Bauer Female Octagon Coupling"),
      ("SW150 Bauer Coupling", "SW150 EMDE Female"),
      ("SW175 Coupling", "SW175 Coupling - Female"),
      ("SW200 Coupling", "SW200 Female Coupling"),
      ("SW250 Coupling", "SW250 Female Coupling"),
      ("TB46 Coupling", "TB46 Coupling - Female"),
      ("65mm Round Drive", "Drive Head - 65mm Round"),
      ("65mm Square Drive", "Drive Head - 65mm Square"),
      ("75mm Square Drive", "Drive Head - 75mm Square"),
      ("100mm Square Drive", "Drive Head - 100mm Square"),
      ("110mm Square Drive", "Drive Head - 110mm Square"),
      ("130mm Square Drive", "Drive Head - 130mm Square"),
      ("130mm Square Drive DIGGA", "Drive Head - 130mm Square DIGGA"),
      ("150mm Square Drive", "Drive Head - 150mm Square"),
      ("150mm Square Drive IMT", "Drive Head - 150mm Square IMT"),
      ("200mm Square Drive Bauer", "Drive Head - 200mm Square Bauer"),
      ("200mm Square Drive MAIT", "Drive Head - 200mm Square MAIT"),
      ("150mm AT Hex", "Drive Head - 150mm AT Hex"),
      ("Terex 2.5\" Hex H250", "Terex Hex Hub Female 2.5\" (H250)")
  ]

  /** `male_map`: the male part of each drive; the round and 65mm drives have none. */
  const MaleParts: seq<(string, string)> := [
      ("3.5\" API Coupling", "3.5\" API Male coupling"),
      ("2\" Hex Coupling", "2\" Hex Coupling - Male Male Joiner"),
      ("3\" Hex Coupling", "3\" Hex Coupling - Male Male Joiner"),
      ("35TM Coupling", "35TM Coupling - Male"),
      ("53TM Coupling", "53TM Coupling - Male"),
      ("Carrendeena 5\" Coupling", "Carrendeena 5\" Coupling - Male"),
      ("Casagrande 5\" Coupling", "Casagrande 5\" Coupling - Male"),
      ("HD4 Coupling", "HD4 Coupling - Male"),
      ("HD5 Coupling", "HD5 Coupling - Male"),
      ("25XHD5 Coupling", "25XHD5 Coupling - Male"),
      ("XHD5 Coupling", "XHD5 Coupling - Male"),
      ("XHD5 Mini Coupling", "XHD5 Mini Coupling - Male"),
      ("Llamada Coupling", "Llamada Coupling - Male"),
      ("MAIT175 Coupling", "MAIT175 Coupling - Male"),
      ("MAIT200 Coupling", "MAIT200 Coupling - Male"),
      ("SW80 Coupling", "TB80/SW80 Coupling - Male"),
      ("SW110 Coupling", "SW110 Male Coupling"),
      ("SW150 EMDE Coupling", "SW150 Bauer Male Coupling"),
      ("SW150 Bauer Coupling", "SW150 EMDE Male"),
      ("SW175 Coupling", "SW175 Coupling - male"),
      ("SW200 Coupling", "SW200 Male Coupling"),
      ("SW250 Coupling", "SW250 Male Coupling"),
      ("TB46 Coupling", "TB46 Coupling - Male"),
      ("75mm Square Drive", "75mm Square Extension Bar Stubb"),
      ("100mm Square Drive", "100mm square Stubb"),
      ("110mm Square Drive", "110mm Drive Stubb"),
      ("130mm Square Drive", "130mm Stubb"),
      ("130mm Square Drive DIGGA", "130mm Stubb - Digga"),
      ("150mm Square Drive", "150mm Stubb"),
      ("150mm Square Drive IMT", "150mm IMT Stubb"),
      ("200mm Square Drive Bauer", "200mm Bauer Drive Stubb"),
      ("200mm Square Drive MAIT", "200mm MAIT Square Stub")
  ]

  /** The four adapter types `type_map` lists. */
  predicate KnownType(adapterType: string)
  {
    adapterType in {HighTensileAdapter.FemaleToFemale, HighTensileAdapter.MaleToMale,
                    HighTensileAdapter.FemaleToMale, HighTensileAdapter.MaleToFemale}
  }

  /**
   * `type_map.get(type, (None, None))`: the parts an adapter type selects for
   * its `from` and `to` sides; a drive without the part gives None.
   */
  function TypeSides(fromDrive: string, toDrive: string, adapterType: string): (r: (Option<string>, Option<string>))
    ensures !KnownType(adapterType) ==> r == (None, None)
    ensures adapterType in {HighTensileAdapter.FemaleToFemale, HighTensileAdapter.FemaleToMale} ==> r.0 == Get(FemaleParts, fromDrive)
    ensures adapterType in {HighTensileAdapter.MaleToMale, HighTensileAdapter.MaleToFemale} ==> r.0 == Get(MaleParts, fromDrive)
    ensures adapterType in {HighTensileAdapter.FemaleToFemale, HighTensileAdapter.MaleToFemale} ==> r.1 == Get(FemaleParts, toDrive)
    ensures adapterType in {HighTensileAdapter.MaleToMale, HighTensileAdapter.FemaleToMale} ==> r.1 == Get(MaleParts, toDrive)
  {
    if adapterType == HighTensileAdapter.FemaleToFemale then (Get(FemaleParts, fromDrive), Get(FemaleParts, toDrive))
    else if adapterType == HighTensileAdapter.MaleToMale then (Get(MaleParts, fromDrive), Get(MaleParts, toDrive))
    else if adapterType == HighTensileAdapter.FemaleToMale then (Get(FemaleParts, fromDrive), Get(MaleParts, toDrive))
    else if adapterType == HighTensileAdapter.MaleToFemale then (Get(MaleParts, fromDrive), Get(FemaleParts, toDrive))
    else (None, None)
  }

  /** The parts of a pair that are present, each once, the `from` side first. */
  function Listed(parts: (Option<string>, Option<string>)): (r: seq<Line>)
    ensures |r| <= 2
    ensures forall l :: l in r ==> Named(l) && l.qty == 1.0
    ensures |r| == (if Truthy(parts.0) then 1 else 0) + (if Truthy(parts.1) then 1 else 0)
    ensures Truthy(parts.0) ==> r[0] == Line(parts.0.value, 1.0)
    ensures Truthy(parts.1) ==> r[|r| - 1] == Line(parts.1.value, 1.0)
  {
    (if Truthy(parts.0) then [Line(parts.0.value, 1.0)] else [])
    + (if Truthy(parts.1) then [Line(parts.1.value, 1.0)] else [])
  }

  /**
   * `_get_high_tensile_drive_head`: the `from` part, then the `to` part, are
   * appended when present.
   */
  method DriveHead(fromDrive: string, toDrive: string, adapterType: string) returns (result: seq<Line>)
    ensures result == Listed(TypeSides(fromDrive, toDrive, adapterType))
  {
    var parts := TypeSides(fromDrive, toDrive, adapterType);
    var fromPart, toPart := parts.0, parts.1;
    result := [];
    if Truthy(fromPart) {
      result := result + [Line(fromPart.value, 1.0)];
    }
    if Truthy(toPart) {
      result := result + [Line(toPart.value, 1.0)];
    }
  }

  /** An adapter of an unknown type lists no drive-head part. */
  lemma UnknownTypeListsNothing(fromDrive: string, toDrive: string, adapterType: string)
    requires !KnownType(adapterType)
    ensures Listed(TypeSides(fromDrive, toDrive, adapterType)) == []
  {
  }

  /** The lines of a list in the opposite order. */
  function Reversed(s: seq<Line>): (r: seq<Line>)
    ensures |r| == |s|
    ensures forall i :: 0 <= i < |s| ==> r[i] == s[|s| - 1 - i]
  {
    if s == [] then [] else Reversed(s[1..]) + [s[0]]
  }

  /** Turning an adapter round reverses its drive-head parts: Female to Female stays, Female to Male becomes Male to Female. */
  lemma {:induction false} TurnedRound(a: string, b: string)
    ensures Listed(TypeSides(b, a, HighTensileAdapter.FemaleToFemale))
         == Reversed(Listed(TypeSides(a, b, HighTensileAdapter.FemaleToFemale)))
    ensures Listed(TypeSides(b, a, HighTensileAdapter.MaleToMale))
         == Reversed(Listed(TypeSides(a, b, HighTensileAdapter.MaleToMale)))
    ensures Listed(TypeSides(b, a, HighTensileAdapter.MaleToFemale))
         == Reversed(Listed(TypeSides(a, b, HighTensileAdapter.FemaleToMale)))
  {
    ReversedPair(Get(FemaleParts, a), Get(FemaleParts, b));
    ReversedPair(Get(MaleParts, a), Get(MaleParts, b));
    ReversedPair(Get(FemaleParts, a), Get(MaleParts, b));
  }

  /** Swapping the two parts of a pair reverses what is listed. */
  lemma ReversedPair(x: Option<string>, y: Option<string>)
    ensures Listed((y, x)) == Reversed(Listed((x, y)))
  {
    var l := Listed((x, y));
    var r := Listed((y, x));
    assert |r| == |l|;
    assert forall i :: 0 <= i < |r| ==> r[i] == Reversed(l)[i];
  }

  /** Every drive in `female_map` has a named female part. */
  lemma FemalePartsNamed()
    ensures forall i :: 0 <= i < |FemaleParts| ==> FemaleParts[i].1 != ""
  {
  }

  /** A Female to Female adapter between two listed drives lists both female parts. */
  lemma FemaleToFemaleListsBoth(a: string, b: string)
    requires HasKey(FemaleParts, a) && HasKey(FemaleParts, b)
    ensures Listed(TypeSides(a, b, HighTensileAdapter.FemaleToFemale))
         == [Line(Get(FemaleParts, a).value, 1.0), Line(Get(FemaleParts, b).value, 1.0)]
  {
    FemalePartsNamed();
  }

  // ---------------------------------------------------------------- extension bar

  /** `_get_eb_base_plate`'s table: the base plate under each drive head. */
  const BasePlates: seq<(string, string)> := [
      ("Drive Head - 100mm Square", "100 Base Plate - 100mm Head"),
      ("Drive Head - 110mm Square", "190 Base Plate - 110mm Head"),
      ("Drive Head - 130mm Square", "Base Plate - 130mm Head"),
      ("Drive Head - 130mm Square DIGGA", "Base Plate - 130mm Head"),
      ("Drive Head - 150mm Square", "Base Plate - 150mm Head"),
      ("Drive Head - 150mm Square IMT", "Base Plate - 150mm Head"),
      ("Drive Head - 200mm Square Bauer", "Base Plate - 200mm Head"),
      ("Drive Head - 200mm Square MAIT", "Base Plate - 200mm Head")
  ]

  /** `_get_eb_base_plate`: the base plate of a drive head, always with quantity 1, named "" for an unlisted head. */
  function BasePlate(head: string): (r: Line)
    ensures r.qty == 1.0
    ensures r.name == "" <==> !HasKey(BasePlates, head)
    ensures r.name != "" ==> (head, r.name) in BasePlates
  {
    assert forall i :: 0 <= i < |BasePlates| ==> BasePlates[i].1 != "";
    Line(GetOr(BasePlates, head, ""), 1.0)
  }

  /** The square billets a telescopic inner bar is made from. */
  const Billets := ["4140 75mm square billet", "4140 100mm square billet"]

  /** `DRIVE_HEAD_HEIGHTS`: the height of each drive head in millimetres. */
  const HeadHeights: seq<(string, nat)> := [
      ("Drive Head - 75mm Square", 75),
      ("Drive Head - 100mm Square", 100),
      ("Drive Head - 110mm Square", 190),
      ("Drive Head - 130mm Square", 130),
      ("Drive Head - 130mm Square DIGGA", 130),
      ("Drive Head - 150mm Square", 130),
      ("Drive Head - 150mm Square IMT", 130),
      ("Drive Head - 200mm Square Bauer", 190),
      ("Drive Head - 200mm Square MAIT", 190)
  ]

  /** `STUB_HEIGHTS`: the height of each stub in millimetres. */
  const StubHeights: seq<(string, nat)> := [
      ("75mm Square Extension Bar Stubb", 115),
      ("100mm square Stubb", 150),
      ("110mm Drive Stubb", 90),
      ("130mm Square Stubb", 200),
      ("130mm Stubb - Digga", 150),
      ("150mm Stubb", 220),
      ("150mm IMT Stubb", 215),
      ("200mm Square Stubb", 350),
      ("200mm MAIT Square Stub", 350)
  ]

  /** A telescopic inner bar on a billet, or an outer or rigid bar on a tube that is not a billet: the only bars with a centre tube. */
  predicate HasTube(barType: string, centre: string)
  {
    (barType == ExtensionBar.Inner && centre in Billets)
    || ((barType == ExtensionBar.Outer || barType == ExtensionBar.Rigid) && centre !in Billets)
  }

  /**
   * The centre tube once the heights are read: the bar less its head on an
   * inner bar, less its head and stub on an outer or rigid bar, in metres
   * rounded to 2 decimals; `(None, 0)` for any other bar.
   */
  function TubeOf(barType: string, centre: string, headMm: nat, stubMm: nat, lengthM: real): (r: Line)
    ensures !HasTube(barType, centre) ==> r == NoLine
    ensures barType == ExtensionBar.Inner && centre in Billets ==>
      r == Line(centre, Round2(lengthM - ExtensionBar.Metres(headMm)))
    ensures barType != ExtensionBar.Inner && HasTube(barType, centre) ==>
      r == Line(centre, Round2(lengthM - ExtensionBar.Metres(headMm + stubMm)))
  {
    var headM := headMm as real / 1000.0;
    var stubM := stubMm as real / 1000.0;
    if barType == ExtensionBar.Inner && centre in Billets then Line(centre, Round2(lengthM - headM))
    else if (barType == ExtensionBar.Outer || barType == ExtensionBar.Rigid) && centre !in Billets then
      Line(centre, Round2(lengthM - headM - stubM))
    else NoLine
  }

  /**
   * `_get_extension_bar_center_tube`: the centre tube of a bar with the
   * given drive head and stub; an unlisted head or stub counts as 0mm.
   */
  function CentreTube(barType: string, centre: string, head: string, stub: string, lengthM: real): (r: Line)
    ensures !HasTube(barType, centre) ==> r == NoLine
    ensures HasTube(barType, centre) ==> r.name == centre
  {
    TubeOf(barType, centre, GetOr(HeadHeights, head, 0), GetOr(StubHeights, stub, 0), lengthM)
  }

  /** A centre tube is never longer than its bar. */
  lemma TubeWithinBar(barType: string, centre: string, headMm: nat, stubMm: nat, lengthM: real)
    requires HasTube(barType, centre)
    ensures TubeOf(barType, centre, headMm, stubMm, lengthM).qty <= Round2(lengthM)
  {
    if barType == ExtensionBar.Inner && centre in Billets {
      ExtensionBar.ShorterRounds(lengthM, headMm);
    } else {
      ExtensionBar.ShorterRounds(lengthM, headMm + stubMm);
    }
  }

  /** On the same head and length, an outer or rigid tube is no longer than an inner one: it also loses the stub. */
  lemma StubShortensTube(barType: string, centre: string, billet: string, headMm: nat, stubMm: nat, lengthM: real)
    requires billet in Billets && centre !in Billets
    requires barType == ExtensionBar.Outer || barType == ExtensionBar.Rigid
    ensures TubeOf(barType, centre, headMm, stubMm, lengthM).qty
         <= TubeOf(ExtensionBar.Inner, billet, headMm, stubMm, lengthM).qty
  {
    Round2Monotone(lengthM - ExtensionBar.Metres(headMm + stubMm), lengthM - ExtensionBar.Metres(headMm));
  }

  /** `gusset_map['dhead_100_110_mm']` */
  const Draft100To110: seq<(string, Gusset)> := [
      ("Hollow Bar - OD128mm WT 11.5mm", Gusset(100, 150)),
      ("Hollow Bar - OD150mm ID120mm", Gusset(100, 150)),
      ("Hollow Bar - OD152mm WT 26mm", Gusset(100, 150)),
      ("Hollow Bar - OD152mm WT 33.5mm", Gusset(100, 150)),
      ("Hollow Bar - OD168mm WT 21.5mm", Gusset(100, 170)),
      ("Hollow Bar - OD168mm WT 29mm", Gusset(100, 170)),
      ("Hollow Bar - OD170mm ID140mm", Gusset(100, 170)),
      ("Hollow Bar - OD180 ID150", Gusset(100, 170)),
      ("Hollow bar - OD200 ID150", Gusset(100, 170)),
      ("Hollow Bar - OD219mm WT 25mm", Gusset(100, 219)),
      ("Pipe - OD168mm WT11mm", Gusset(100, 170)),
      ("Pipe - OD219mm WT12.7mm", Gusset(100, 219))
  ]

  /** `gusset_map['dhead_130_mm']` */
  const Draft130: seq<(string, Gusset)> := [
      ("Hollow Bar - OD150mm ID120mm", Gusset(130, 150)),
      ("Hollow Bar - OD152mm WT 26mm", Gusset(130, 150)),
      ("Hollow Bar - OD152mm WT 33.5mm", Gusset(130, 150)),
      ("Hollow Bar - OD168mm WT 21.5mm", Gusset(130, 170)),
      ("Hollow Bar - OD168mm WT 29mm", Gusset(130, 170)),
      ("Hollow Bar - OD170mm ID140mm", Gusset(130, 170)),
      ("Hollow Bar - OD180 ID150", Gusset(130, 170)),
      ("Hollow bar - OD200 ID150", Gusset(130, 170)),
      ("Hollow Bar - OD219mm WT 25mm", Gusset(130, 219)),
      ("Hollow bar - OD273mm WT14", Gusset(130, 273)),
      ("Hollow Bar - OD273mm WT 25mm", Gusset(130, 273)),
      ("Hollow Bar - OD273mm WT 32mm", Gusset(130, 273)),
      ("Hollow Bar - OD323mm WT25mm", Gusset(130, 323)),
      ("Hollow Bar - OD323mm WT30mm", Gusset(130, 323)),
      ("Hollow Bar - OD356 ID306", Gusset(130, 323)),
      ("Hollow bar - OD457mm T35mm", Gusset(130, 323)),
      ("Hollow bar - OD457mm T25mm", Gusset(130, 323)),
      ("Pipe - OD168mm WT11mm", Gusset(130, 170)),
      ("Pipe - OD219mm WT12.7mm", Gusset(130, 219)),
      ("Pipe - OD273mm WT12.7mm", Gusset(130, 273)),
      ("Pipe - OD323mm WT12.7mm", Gusset(130, 323)),
      ("Pipe - OD355mm WT12.7mm", Gusset(130, 323)),
      ("Pipe - OD457mm WT15.9mm", Gusset(130, 323))
  ]

  /** `gusset_map['dhead_150_mm']` */
  const Draft150: seq<(string, Gusset)> := [
      ("Hollow Bar - OD150mm ID120mm", Gusset(150, 150)),
      ("Hollow Bar - OD152mm WT 26mm", Gusset(150, 150)),
      ("Hollow Bar - OD152mm WT 33.5mm", Gusset(150, 150)),
      ("Hollow Bar - OD168mm WT 21.5mm", Gusset(150, 170)),
      ("Hollow Bar - OD168mm WT 29mm", Gusset(150, 170)),
      ("Hollow Bar - OD170mm ID140mm", Gusset(150, 170)),
      ("Hollow Bar - OD180 ID150", Gusset(150, 170)),
      ("Hollow bar - OD200 ID150", Gusset(150, 170)),
      ("Hollow Bar - OD219mm WT 25mm", Gusset(150, 170)),
      ("Hollow bar - OD273mm WT14", Gusset(150, 273)),
      ("Hollow Bar - OD273mm WT 25mm", Gusset(150, 273)),
      ("Hollow Bar - OD273mm WT 32mm", Gusset(150, 273)),
      ("Hollow Bar - OD323mm WT25mm", Gusset(150, 273)),
      ("Hollow Bar - OD323mm WT30mm", Gusset(150, 273)),
      ("Hollow Bar - OD356 ID306", Gusset(150, 273)),
      ("Hollow bar - OD457mm T35mm", Gusset(150, 273)),
      ("Hollow bar - OD457mm T25mm", Gusset(150, 273)),
      ("Pipe - OD168mm WT11mm", Gusset(150, 170)),
      ("Pipe - OD219mm WT12.7mm", Gusset(150, 170)),
      ("Pipe - OD273mm WT12.7mm", Gusset(150, 273)),
      ("Pipe - OD323mm WT12.7mm", Gusset(150, 273)),
      ("Pipe - OD355mm WT12.7mm", Gusset(150, 273)),
      ("Pipe - OD457mm WT15.9mm", Gusset(150, 273))
  ]

  /** `gusset_map['dhead_200_mm']` */
  const Draft200: seq<(string, Gusset)> := [
      ("Hollow Bar - OD168mm WT 21.5mm", Gusset(200, 170)),
      ("Hollow Bar - OD168mm WT 29mm", Gusset(200, 170)),
      ("Hollow Bar - OD170mm ID140mm", Gusset(200, 170)),
      ("Hollow Bar - OD180 ID150", Gusset(200, 170)),
      ("Hollow bar - OD200 ID150", Gusset(200, 170)),
      ("Hollow Bar - OD219mm WT 25mm", Gusset(200, 170)),
      ("Hollow bar - OD273mm WT14", Gusset(200, 273)),
      ("Hollow Bar - OD273mm WT 25mm", Gusset(200, 273)),
      ("Hollow Bar - OD273mm WT 32mm", Gusset(200, 273)),
      ("Hollow Bar - OD323mm WT25mm", Gusset(200, 273)),
      ("Hollow Bar - OD323mm WT30mm", Gusset(200, 273)),
      ("Hollow Bar - OD356 ID306", Gusset(200, 273)),
      ("Hollow bar - OD457mm T35mm", Gusset(200, 273)),
      ("Hollow bar - OD457mm T25mm", Gusset(200, 273)),
      ("Pipe - OD168mm WT11mm", Gusset(200, 170)),
      ("Pipe - OD219mm WT12.7mm", Gusset(200, 170)),
      ("Pipe - OD273mm WT12.7mm", Gusset(200, 273)),
      ("Pipe - OD323mm WT12.7mm", Gusset(200, 273)),
      ("Pipe - OD355mm WT12.7mm", Gusset(200, 273)),
      ("Pipe - OD457mm WT15.9mm", Gusset(200, 273))
  ]

  function DraftTable(g: HeadGroup): seq<(string, Gusset)>
  {
    match g
    case Head100To110 => Draft100To110
    case Head130 => Draft130
    case Head150 => Draft150
    case Head200 => Draft200
  }

  /** The drive size of a head group: 100 for the 100mm and 110mm heads. */
  function GroupDrive(g: HeadGroup): nat
  {
    match g
    case Head100To110 => 100
    case Head130 => 130
    case Head150 => 150
    case Head200 => 200
  }

  /** In this revision every gusset of a group is sized for the group's own drive. */
  lemma DraftGussetsFitGroup(g: HeadGroup)
    ensures forall i :: 0 <= i < |DraftTable(g)| ==> DraftTable(g)[i].1.drive == GroupDrive(g)
  {
  }

  /**
   * `_get_extension_bar_center_tube_gusset`: `(label, 1)` when the head's
   * group lists the tube, `(None, 0)` otherwise.
   */
  function DraftGusset(head: string, tube: string): (r: Line)
    ensures r != NoLine <==> GussetGroup(head).Some? && HasKey(DraftTable(GussetGroup(head).value), tube)
    ensures r != NoLine ==> r.qty == 1.0
    ensures r != NoLine ==> exists g :: (tube, g) in DraftTable(GussetGroup(head).value) && r.name == GussetName(g)
  {
    match GussetGroup(head)
    case None => NoLine
    case Some(g) =>
      match Get(DraftTable(g), tube)
      case None => NoLine
      case Some(gusset) => Line(GussetName(gusset), 1.0)
  }

  /** A gusset this revision chooses is sized for the drive of the head's group. */
  lemma DraftGussetFitsHead(head: string, tube: string)
    requires DraftGusset(head, tube) != NoLine
    ensures exists g :: DraftGusset(head, tube).name == GussetName(g) && g.drive == GroupDrive(GussetGroup(head).value)
  {
    var grp := GussetGroup(head).value;
    var gusset := Get(DraftTable(grp), tube).value;
    DraftGussetsFitGroup(grp);
    assert (tube, gusset) in DraftTable(grp);
  }

  /** The pipe the two revisions give different gussets. */
  const SmallPipe := "Pipe - OD168mm WT11mm"

  lemma DraftSmallPipe()
    ensures Get(Draft150, SmallPipe) == Some(Gusset(150, 170))
  {
    GetFirst(Draft150, 17);
  }

  lemma LaterSmallPipe()
    ensures Get(Gusset150, SmallPipe) == Some(Gusset(130, 170))
  {
    GetFirst(Gusset150, 19);
  }

  /** This revision gives a 150mm head on the small pipe a 150mm gusset. */
  lemma DraftPipeGusset()
    ensures DraftGusset("Drive Head - 150mm Square", SmallPipe) == Line(GussetName(Gusset(150, 170)), 1.0)
  {
    assert GussetGroup("Drive Head - 150mm Square") == Some(Head150);
    DraftSmallPipe();
  }

  /** The later revision gives a 150mm head on the small pipe a 130mm gusset. */
  lemma LaterPipeGusset()
    ensures ExtensionBar.BarGusset("Drive Head - 150mm Square", SmallPipe) == Line(GussetName(Gusset(130, 170)), 1.0)
  {
    assert GussetGroup("Drive Head - 150mm Square") == Some(Head150);
    LaterSmallPipe();
  }

  /** The collar of an inner bar: the 75mm or 100mm collar for the matching billet, "" for any other tube. */
  function Collar(centre: string): (r: string)
    ensures r == ExtensionBar.Collar(centre)
  {
    var collar75 := if centre == "4140 75mm square billet" then "Extension Bar Collar - 75mm" else "";
    var collar100 := if centre == "4140 100mm square billet" then "Extension Bar Collar - 100mm" else "";
    if collar75 != "" then collar75 else collar100
  }
}
