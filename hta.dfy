/**
 * The high-tensile adapter of product_bom.py: the drive-head parts on each
 * side of the adapter (`_get_high_tensile_drive_head`), the stiffening ring
 * a mixed adapter needs (`_get_stiffening_ring_for_tensile_adapter`), the
 * reducer (`_get_hta_reducer`) and the base plate (`_get_hta_base_plate`).
 *
 * An adapter joins a `from` drive to a `to` drive; its type says which side
 * carries the female part and which the male part. A female part on a
 * square drive is a drive head, which sits on a base plate.
 */
module HighTensileAdapter {
  import opened BomWrappers
  import opened PyText
  import opened PyRegex
  import opened Bom

  const FemaleToFemale := "Female to Female"
  const MaleToMale := "Male to Male"
  const FemaleToMale := "Female to Male"
  const MaleToFemale := "Male to Female"

  /** The female part of each drive. */
  const FemaleParts: seq<(string, string)> := [
    ("3.5\" API Coupling", "3.5\" API Female coupling"),
    ("2\" Hex Coupling", "2\" Hex Coupling - Female"),
    ("3\" Hex Coupling", "3\" Hex Coupling - Female"),
    ("4\" Hex Coupling", "4\" Hex Coupling - Female"),
    ("35TM Coupling", "35TM Coupling - Female"),
    ("53TM Coupling", "53TM Coupling - Female"),
    ("Carrendeena 5\" Coupling", "Carrendeena 5\" Coupling - Female"),
    ("Casagrande 5\" Coupling", "Casagrande 5\" Coupling - Female"),
    ("HD4 Coupling", "HD4 Coupling - Female"),
    ("HD5 Coupling", "HD5 Coupling - Female"),
    ("25XHD5 Coupling", "25XHD5 Coupling - Female"),
    ("XHD5 Coupling", "XHD5 Coupling - Female"),
    ("XHD5 Mini Coupling", "XHD5 Mini Coupling - Female"),
    ("Llamada Coupling", "Llamada Coupling - Female"),
    ("MAIT175 Coupling", "MAIT175 Coupling - Female"),
    ("MAIT200 Coupling", "MAIT200 Coupling - Female"),
    ("SW80 Coupling", "TB80/SW80 Coupling - Female"),
    ("SW110 Coupling", "SW110 Female Coupling"),
    ("SW150 EMDE Coupling", "SW150 Bauer Female Octagon Coupling"),
    ("SW150 Bauer Coupling", "SW150 EMDE Female"),
    ("SW175 Coupling", "SW175 Coupling - Female"),
    ("SW200 Coupling", "SW200 Female Coupling"),
    ("SW250 Coupling", "SW250 Female Coupling"),
    ("TB46 Coupling", "TB46 Coupling - Female"),
    ("65mm Round Drive", "Drive Head - 65mm Round"),
    ("65mm Square Drive", "Drive Head - 65mm Square"),
    ("75mm Square Drive", "Drive Head - 75mm Square"),
    ("100mm Square Drive", "Drive Head - 100mm Square"),
    ("110mm Square Drive", "Drive Head - 110mm Square"),
    ("130mm Square Drive", "Drive Head - 130mm Square"),
    ("130mm Square Drive DIGGA", "Drive Head - 130mm Square DIGGA"),
    ("150mm Square Drive", "Drive Head - 150mm Square"),
    ("150mm Square Drive IMT", "Drive Head - 150mm Square IMT"),
    ("200mm Square Drive Bauer", "Drive Head - 200mm Square Bauer"),
    ("200mm Square Drive MAIT", "Drive Head - 200mm Square MAIT"),
    ("150mm AT Hex", "Drive Head - 150mm AT Hex"),
    ("Terex 2.5\" Hex H250", "Terex Hex Hub Female 2.5\" (H250)")
  ]

  /** The male part (coupling, joiner or stub) of each drive that has one. */
  const MaleParts: seq<(string, string)> := [
    ("3.5\" API Coupling", "3.5\" API Male coupling"),
    ("2\" Hex Coupling", "2\" Hex Coupling - Male Male Joiner"),
    ("3\" Hex Coupling", "3\" Hex Coupling - Male Male Joiner"),
    ("4\" Hex Coupling", "4\" Hex Coupling - Male Male Joiner"),
    ("35TM Coupling", "35TM Coupling - Male"),
    ("53TM Coupling", "53TM Coupling - Male"),
    ("Carrendeena 5\" Coupling", "Carrendeena 5\" Coupling - Male"),
    ("Casagrande 5\" Coupling", "Casagrande 5\" Coupling - Male"),
    ("HD4 Coupling", "HD4 Coupling - Male"),
    ("HD5 Coupling", "HD5 Coupling - Male"),
    ("25XHD5 Coupling", "25XHD5 Coupling - Male"),
    ("XHD5 Coupling", "XHD5 Coupling - Male"),
    ("XHD5 Mini Coupling", "XHD5 Mini Coupling - Male"),
    ("Llamada Coupling", "Llamada Coupling - Male"),
    ("MAIT175 Coupling", "MAIT175 Coupling - Male"),
    ("MAIT200 Coupling", "MAIT200 Coupling - Male"),
    ("SW80 Coupling", "TB80/SW80 Coupling - Male"),
    ("SW110 Coupling", "SW110 Male Coupling"),
    ("SW150 EMDE Coupling", "SW150 Bauer Male Coupling"),
    ("SW150 Bauer Coupling", "SW150 EMDE Male"),
    ("SW175 Coupling", "SW175 Coupling - male"),
    ("SW200 Coupling", "SW200 Male Coupling"),
    ("SW250 Coupling", "SW250 Male Coupling"),
    ("TB46 Coupling", "TB46 Coupling - Male"),
    ("75mm Square Drive", "75mm Square Extension Bar Stubb"),
    ("100mm Square Drive", "100mm square Stubb"),
    ("110mm Square Drive", "110mm Drive Stubb"),
    ("130mm Square Drive", "130mm Stubb"),
    ("130mm Square Drive DIGGA", "130mm Stubb - Digga"),
    ("150mm Square Drive", "150mm Stub"),
    ("150mm Square Drive IMT", "150mm IMT Stub"),
    ("200mm Square Drive Bauer", "200mm Bauer Drive Stubb"),
    ("200mm Square Drive MAIT", "200mm MAIT Square Stub")
  ]

  /** Every female part has a name. */
  lemma FemalePartsNamed()
    ensures forall i :: 0 <= i < |FemaleParts| ==> FemaleParts[i].1 != ""
  {
  }

  /** The female part of a listed drive. */
  function Female(drive: string): (r: string)
    requires HasKey(FemaleParts, drive)
    ensures r != ""
  {
    FemalePartsNamed();
    Get(FemaleParts, drive).value
  }

  // ---------------------------------------------------------------- reducer and base plate

  const Reducers: seq<(string, string)> := [
    ("Reducer - 4\" to 2\"", "Reducer - 4\" to 2\""),
    ("Reducer - 5\" to 4\"", "Internal reducer funnel 5\" to 4\""),
    ("Reducer - 250NB to 100NB", "Concentric reducer - 250NB to 100NB NB"),
    ("Reducer - 350NB to 200NB", "Concentric reducer - 350 NB to 200 NB"),
    ("Reducer - 500NB to 300NB", "Concentric reducer - 500 NB to 300 NB")
  ]

  /** `_get_hta_reducer`: the reducer part of the Reducer attribute, "" for an unlisted one. */
  function Reducer(reducer: string): (r: string)
    ensures r == "" <==> !HasKey(Reducers, reducer)
    ensures r != "" ==> (reducer, r) in Reducers
  {
    assert forall i :: 0 <= i < |Reducers| ==> Reducers[i].1 != "";
    GetOr(Reducers, reducer, "")
  }

  /** The base plate under each drive head; the 75mm head sits on none. */
  const BasePlates: seq<(string, string)> := [
    ("Drive Head - 75mm Square", ""),
    ("Drive Head - 100mm Square", "Base Plate - 100mm Head"),
    ("Drive Head - 110mm Square", "Base Plate - 110mm Head"),
    ("Drive Head - 130mm Square", "Base Plate - 130mm Head"),
    ("Drive Head - 130mm Square DIGGA", "Base Plate - 130mm Head"),
    ("Drive Head - 150mm Square", "Base Plate - 150mm Head"),
    ("Drive Head - 150mm Square IMT", "Base Plate - 150mm Head"),
    ("Drive Head - 200mm Square Bauer", "Base Plate - 200mm Head"),
    ("Drive Head - 200mm Square MAIT", "Base Plate - 200mm Head")
  ]

  /** `_get_hta_base_plate`: the base plate of a drive head, "" for the 75mm head and for any other part. */
  function BasePlate(head: string): (r: string)
    ensures r != "" <==> HasKey(BasePlates, head) && head != "Drive Head - 75mm Square"
    ensures r != "" ==> (head, r) in BasePlates
  {
    assert forall i :: 1 <= i < |BasePlates| ==> BasePlates[i].1 != "";
    assert BasePlates[0] == ("Drive Head - 75mm Square", "");
    GetOr(BasePlates, head, "")
  }

  // ---------------------------------------------------------------- drive-head parts

  /**
   * What the two drives of an adapter look up: the female part of each and
   * the male part of each (a drive may have none).
   */
  datatype Sides = Sides(femaleFrom: string, femaleTo: string, maleFrom: Option<string>, maleTo: Option<string>)

  /** The lookups of two drives that both have a female part. */
  function SidesOf(fromDrive: string, toDrive: string): (r: Sides)
    requires HasKey(FemaleParts, fromDrive) && HasKey(FemaleParts, toDrive)
    ensures r.femaleFrom != "" && r.femaleTo != ""
    ensures r.maleFrom == Get(MaleParts, fromDrive) && r.maleTo == Get(MaleParts, toDrive)
  {
    Sides(Female(fromDrive), Female(toDrive), Get(MaleParts, fromDrive), Get(MaleParts, toDrive))
  }

  /** The same adapter turned round. */
  function Swap(s: Sides): Sides
  {
    Sides(s.femaleTo, s.femaleFrom, s.maleTo, s.maleFrom)
  }

  /** Turning round a pair of drives swaps their lookups. */
  lemma SidesOfSwap(a: string, b: string)
    requires HasKey(FemaleParts, a) && HasKey(FemaleParts, b)
    ensures SidesOf(b, a) == Swap(SidesOf(a, b))
  {
  }

  /** The head of a Female to Female adapter: the wider female part, the `to` part on a tie. */
  function WiderHead(s: Sides): (r: string)
    ensures r == s.femaleFrom || r == s.femaleTo
    ensures MmNumber(r) >= MmNumber(s.femaleFrom) && MmNumber(r) >= MmNumber(s.femaleTo)
    ensures MmNumber(s.femaleFrom) == MmNumber(s.femaleTo) ==> r == s.femaleTo
  {
    if MmNumber(s.femaleFrom) > MmNumber(s.femaleTo) then s.femaleFrom else s.femaleTo
  }

  /** The three parts of an adapter: its `from` side, its `to` side and its base plate (None: Python's None). */
  datatype Parts = Parts(fromPart: Option<string>, toPart: Option<string>, basePlate: Option<string>)

  /** The parts each adapter type selects; an unknown type selects none. */
  function TypeParts(s: Sides, adapterType: string): (r: Parts)
    ensures r.basePlate.Some? <==> adapterType in {FemaleToFemale, MaleToMale, FemaleToMale, MaleToFemale}
    ensures adapterType in {FemaleToFemale, FemaleToMale} ==> r.fromPart == Some(s.femaleFrom)
    ensures adapterType in {FemaleToFemale, MaleToFemale} ==> r.toPart == Some(s.femaleTo)
    ensures adapterType in {MaleToMale, MaleToFemale} ==> r.fromPart == s.maleFrom
    ensures adapterType in {MaleToMale, FemaleToMale} ==> r.toPart == s.maleTo
  {
    if adapterType == FemaleToFemale then
      Parts(Some(s.femaleFrom), Some(s.femaleTo), Some(BasePlate(WiderHead(s))))
    else if adapterType == MaleToMale then Parts(s.maleFrom, s.maleTo, Some(""))
    else if adapterType == FemaleToMale then Parts(Some(s.femaleFrom), s.maleTo, Some(BasePlate(s.femaleFrom)))
    else if adapterType == MaleToFemale then Parts(s.maleFrom, Some(s.femaleTo), Some(BasePlate(s.femaleTo)))
    else Parts(None, None, None)
  }

  /** One entry of the list: the part with quantity 1, or `(None, 0)` for a missing or empty one. */
  function Entry(part: Option<string>): (r: Line)
    ensures Truthy(part) ==> r == Line(part.value, 1.0)
    ensures !Truthy(part) ==> r == NoLine
    ensures r == NoLine || (Named(r) && r.qty == 1.0)
  {
    if Truthy(part) then Line(part.value, 1.0) else NoLine
  }

  /** The entry's name as the stiffening-ring rule sees it: None for a placeholder. */
  function EntryName(l: Line): (r: Option<string>)
    ensures r.None? <==> l.name == ""
    ensures r.Some? ==> r.value == l.name
  {
    if l.name == "" then None else Some(l.name)
  }

  /**
   * `_get_high_tensile_drive_head`: both drives must have a female part
   * (the widths of both are read first, `TypeError` otherwise); then the
   * `from` part, the `to` part and the base plate are appended in that
   * order, each with quantity 1 or as a `(None, 0)` placeholder.
   */
  method DriveHead(fromDrive: string, toDrive: string, adapterType: string) returns (r: Result<seq<Line>>)
    ensures r.Fail? <==> !HasKey(FemaleParts, fromDrive) || !HasKey(FemaleParts, toDrive)
    ensures r.Fail? ==> r.error == TypeError
    ensures r.Ok? ==> |r.value| == 3
    ensures r.Ok? ==> var p := TypeParts(SidesOf(fromDrive, toDrive), adapterType);
      r.value[0] == Entry(p.fromPart) && r.value[1] == Entry(p.toPart) && r.value[2] == Entry(p.basePlate)
  {
    if !HasKey(FemaleParts, fromDrive) || !HasKey(FemaleParts, toDrive) {
      return Fail(TypeError);
    }
    var sd := SidesOf(fromDrive, toDrive);
    var p := TypeParts(sd, adapterType);
    var result := AppendParts(p);
    return Ok(result);
  }

  /** The `from` part, the `to` part and the base plate, appended in that order. */
  method AppendParts(p: Parts) returns (result: seq<Line>)
    ensures |result| == 3
    ensures result[0] == Entry(p.fromPart) && result[1] == Entry(p.toPart) && result[2] == Entry(p.basePlate)
  {
    result := [];
    result := result + [Entry(p.fromPart)];
    result := result + [Entry(p.toPart)];
    result := result + [Entry(p.basePlate)];
  }

  /** A Male to Male adapter has no base plate; its two sides are the male parts of the drives. */
  lemma MaleToMaleHasNoBasePlate(s: Sides)
    ensures Entry(TypeParts(s, MaleToMale).basePlate) == NoLine
    ensures Entry(TypeParts(s, MaleToMale).fromPart) == Entry(s.maleFrom)
    ensures Entry(TypeParts(s, MaleToMale).toPart) == Entry(s.maleTo)
  {
  }

  /** An adapter of an unknown type yields three placeholders. */
  lemma UnknownTypeHasNoParts(s: Sides, adapterType: string)
    requires adapterType !in {FemaleToFemale, MaleToMale, FemaleToMale, MaleToFemale}
    ensures var p := TypeParts(s, adapterType);
      [Entry(p.fromPart), Entry(p.toPart), Entry(p.basePlate)] == [NoLine, NoLine, NoLine]
  {
  }

  /**
   * Female to Male from `a` to `b` and Male to Female from `b` to `a` are
   * the same adapter turned round: the two sides swap, the base plate stays.
   */
  lemma MixedTypesMirror(s: Sides)
    ensures var fm := TypeParts(s, FemaleToMale);
      var mf := TypeParts(Swap(s), MaleToFemale);
      fm.fromPart == mf.toPart && fm.toPart == mf.fromPart && fm.basePlate == mf.basePlate
  {
  }

  /**
   * Female to Female from `a` to `b` and from `b` to `a` swap their sides;
   * when the two heads differ in width they share the base plate of the
   * wider head.
   */
  lemma FemaleToFemaleSymmetric(s: Sides)
    requires MmNumber(s.femaleFrom) != MmNumber(s.femaleTo)
    ensures var ab := TypeParts(s, FemaleToFemale);
      var ba := TypeParts(Swap(s), FemaleToFemale);
      ab.fromPart == ba.toPart && ab.toPart == ba.fromPart && ab.basePlate == ba.basePlate
  {
  }

  /** The female side of a Female to Female or Female to Male adapter is always present. */
  lemma FemaleSidePresent(fromDrive: string, toDrive: string, adapterType: string)
    requires HasKey(FemaleParts, fromDrive) && HasKey(FemaleParts, toDrive)
    requires adapterType == FemaleToFemale || adapterType == FemaleToMale
    ensures Entry(TypeParts(SidesOf(fromDrive, toDrive), adapterType).fromPart) == Line(Female(fromDrive), 1.0)
  {
  }

  // ---------------------------------------------------------------- stiffening ring

  const HeadRingKey := "75mm Head"

  /** One row of the stiffening matrix: which stubs a drive head needs a ring for; the 75mm head always. */
  function Row(s75: bool, s100: bool, s110: bool, s130: bool, s150: bool): seq<(string, bool)>
  {
    [("75mm Stubb", s75), ("100mm Stubb", s100), ("110mm Stubb", s110), ("130mm Stubb", s130),
     ("150mm Stubb", s150), (HeadRingKey, true)]
  }

  const StiffeningMatrix: seq<(string, seq<(string, bool)>)> := [
    ("Drive Head - 100mm Square", Row(true, false, false, false, false)),
    ("Drive Head - 110mm Square", Row(true, true, false, false, false)),
    ("Drive Head - 130mm Square", Row(true, true, true, false, false)),
    ("Drive Head - 130mm Square DIGGA", Row(true, true, true, false, false)),
    ("Drive Head - 150mm Square", Row(true, true, true, true, false)),
    ("Drive Head - 150mm Square IMT", Row(true, true, true, true, true)),
    ("Drive Head - 200mm Square Bauer", Row(true, true, true, true, true)),
    ("Drive Head - 200mm Square MAIT", Row(true, true, true, true, true))
  ]

  const RingLabels: seq<(string, string)> := [
    ("75mm Stubb", "Stiffening Ring - 75mm Stubb"),
    ("100mm Stubb", "Stiffening Ring - 100mm Stubb"),
    ("110mm Stubb", "Stiffening Ring - 110mm Stubb"),
    ("130mm Stubb", "Stiffening Ring - 130mm Stubb"),
    ("150mm Stubb", "Stiffening Ring - 150mm Stubb"),
    (HeadRingKey, "Stiffening Ring - 75mm Head")
  ]

  const HeadRing := "Stiffening Ring - 75mm Head"

  /** Every key a matrix row can mark has a ring label, and the label names the key. */
  lemma RingLabelsCoverMatrix(b75: bool, b100: bool, b110: bool, b130: bool, b150: bool, k: string)
    requires HasKey(Row(b75, b100, b110, b130, b150), k)
    ensures Get(RingLabels, k) == Some("Stiffening Ring - " + k)
  {
    var row := Row(b75, b100, b110, b130, b150);
    var i :| 0 <= i < |row| && row[i].0 == k;
    assert RingLabels[i].0 == k && RingLabels[i].1 == "Stiffening Ring - " + k;
    GetEntry(RingLabels, i);
  }

  /** The stub and the drive head the ring rule looks at: the male and the female side of a mixed adapter. */
  function StubAndDrive(driveFrom: Option<string>, driveTo: Option<string>, couplingType: string)
    : (r: (Option<string>, Option<string>))
    ensures couplingType == FemaleToMale ==> r == (driveTo, driveFrom)
    ensures couplingType == MaleToFemale ==> r == (driveFrom, driveTo)
    ensures couplingType != FemaleToMale && couplingType != MaleToFemale ==> r == (Some(""), Some(""))
  {
    if couplingType == FemaleToMale then (driveTo, driveFrom)
    else if couplingType == MaleToFemale then (driveFrom, driveTo)
    else (Some(""), Some(""))
  }

  /** The matrix key of a stub: "<n>mm Stubb" when its name says stub and holds a two- or three-digit width. */
  function PreferredStub(stub: string): (r: Option<string>)
    ensures r.Some? <==> Contains(Lower(stub), "stub") && SearchMmDigits(stub).Some?
    ensures r.Some? ==> r.value == SearchMmDigits(stub).value + "mm Stubb"
  {
    if Contains(Lower(stub), "stub") && SearchMmDigits(stub).Some? then Some(SearchMmDigits(stub).value + "mm Stubb")
    else None
  }

  /** A ring for the stub on a matrix row: the ring when the row marks the stub, else the placeholder. */
  function StubRing(row: seq<(string, bool)>, stub: string): (r: Line)
    ensures r != NoLine <==> PreferredStub(stub).Some? && Get(row, PreferredStub(stub).value) == Some(true)
    ensures r != NoLine ==> r == Line(GetOr(RingLabels, PreferredStub(stub).value, ""), 1.0)
  {
    match PreferredStub(stub)
    case Some(k) => if Get(row, k) == Some(true) then Line(GetOr(RingLabels, k, ""), 1.0) else NoLine
    case None => NoLine
  }

  /**
   * `_get_stiffening_ring_for_tensile_adapter`, given the names of the two
   * drive entries (None for a placeholder): a 75mm head takes the head
   * ring; a head outside the matrix takes none (Python's None); otherwise
   * the stub's ring when the matrix marks it, else `(None, 0)`. A missing
   * head raises `TypeError` (its width is read from None) and a missing stub
   * on a listed head raises `AttributeError` (None has no `lower`).
   */
  function StiffeningRing(driveFrom: Option<string>, driveTo: Option<string>, couplingType: string)
    : (r: Result<Option<Line>>)
    ensures couplingType != FemaleToMale && couplingType != MaleToFemale ==> r == Ok(None)
    ensures var (stub, drive) := StubAndDrive(driveFrom, driveTo, couplingType);
      (r.Fail? <==> drive.None? || (MmNumber(drive.value) != 75 && HasKey(StiffeningMatrix, drive.value) && stub.None?))
      && (drive.None? ==> r == Fail(TypeError))
      && (drive.Some? && MmNumber(drive.value) == 75 ==> r == Ok(Some(Line(HeadRing, 1.0))))
      && (drive.Some? && MmNumber(drive.value) != 75 ==>
            (r == Ok(None) <==> !HasKey(StiffeningMatrix, drive.value)))
      && (drive.Some? && MmNumber(drive.value) != 75 && stub.Some? && HasKey(StiffeningMatrix, drive.value) ==>
            r == Ok(Some(StubRing(Get(StiffeningMatrix, drive.value).value, stub.value))))
    ensures r.Fail? ==> r.error == TypeError || r.error == AttributeError
  {
    var (stub, drive) := StubAndDrive(driveFrom, driveTo, couplingType);
    match drive
    case None => Fail(TypeError)
    case Some(d) =>
      if MmNumber(d) == 75 then Ok(Some(Line(HeadRing, 1.0)))
      else
        match Get(StiffeningMatrix, d)
        case None => Ok(None)
        case Some(row) =>
          match stub
          case None => Fail(AttributeError)
          case Some(s) => Ok(Some(StubRing(row, s)))
  }

  /** The ring of an adapter, read from the entries `DriveHead` lists. */
  function AdapterRing(s: Sides, adapterType: string): Result<Option<Line>>
  {
    var p := TypeParts(s, adapterType);
    StiffeningRing(EntryName(Entry(p.fromPart)), EntryName(Entry(p.toPart)), adapterType)
  }

  /** Female to Female, Male to Male and unknown adapters take no ring. */
  lemma OnlyMixedAdaptersRing(s: Sides, adapterType: string)
    requires adapterType != FemaleToMale && adapterType != MaleToFemale
    ensures AdapterRing(s, adapterType) == Ok(None)
  {
  }

  /** The female side of a mixed adapter is always present, so its width is always readable. */
  lemma MixedAdapterHeadPresent(s: Sides, adapterType: string)
    requires s.femaleFrom != "" && s.femaleTo != ""
    requires adapterType == FemaleToMale || adapterType == MaleToFemale
    ensures AdapterRing(s, adapterType) != Fail(TypeError)
  {
  }

  /** The width of a drive head is the number its name gives before "mm". */
  lemma HeadWidth(n: nat, rest: string)
    ensures MmNumber("Drive Head - " + NatText(n) + "mm" + rest) == n
  {
    var a := "Drive Head - ";
    assert forall i :: 0 <= i < |a| ==> !IsDigit(a[i]);
    assert a + NatText(n) + "mm" + rest == a + (NatText(n) + "mm" + rest);
    SearchBeforeSkip(a, NatText(n) + "mm" + rest, "mm");
    SearchBeforeWritten(n, "mm", rest);
  }

  /** The 100mm head is in the matrix and is not 75mm wide. */
  lemma Head100Listed()
    ensures MmNumber("Drive Head - 100mm Square") == 100
    ensures HasKey(StiffeningMatrix, "Drive Head - 100mm Square")
  {
    assert NatText(100) == "100";
    assert "Drive Head - 100mm Square" == "Drive Head - " + NatText(100) + "mm" + " Square";
    HeadWidth(100, " Square");
    assert StiffeningMatrix[0].0 == "Drive Head - 100mm Square";
  }

  /** The 100mm square drive's female part is the 100mm drive head. */
  lemma Female100()
    ensures Get(FemaleParts, "100mm Square Drive") == Some("Drive Head - 100mm Square")
    ensures HasKey(FemaleParts, "100mm Square Drive")
  {
    assert FemaleParts[27] == ("100mm Square Drive", "Drive Head - 100mm Square");
    GetFirst(FemaleParts, 27);
  }

  /** The 65mm round drive has a female part. */
  lemma RoundDriveFemale()
    ensures Get(FemaleParts, "65mm Round Drive") == Some("Drive Head - 65mm Round")
    ensures HasKey(FemaleParts, "65mm Round Drive")
  {
    var k := "65mm Round Drive";
    assert FemaleParts[24] == (k, "Drive Head - 65mm Round");
    assert forall i :: 0 <= i < 8 ==> FemaleParts[i].0 != k;
    assert forall i :: 8 <= i < 16 ==> FemaleParts[i].0 != k;
    assert forall i :: 16 <= i < 24 ==> FemaleParts[i].0 != k;
    GetFirst(FemaleParts, 24);
  }

  /** The 65mm round drive has no male part. */
  lemma RoundDriveNoMale()
    ensures Get(MaleParts, "65mm Round Drive") == None
  {
    var k := "65mm Round Drive";
    assert forall i :: 0 <= i < 9 ==> MaleParts[i].0 != k;
    assert forall i :: 9 <= i < 18 ==> MaleParts[i].0 != k;
    assert forall i :: 18 <= i < 26 ==> MaleParts[i].0 != k;
    assert forall i :: 26 <= i < 33 ==> MaleParts[i].0 != k;
  }

  /** What an adapter from the 100mm square drive onto the 65mm round drive looks up. */
  lemma RoundDriveSides()
    ensures HasKey(FemaleParts, "100mm Square Drive") && HasKey(FemaleParts, "65mm Round Drive")
    ensures SidesOf("100mm Square Drive", "65mm Round Drive").femaleFrom == "Drive Head - 100mm Square"
    ensures SidesOf("100mm Square Drive", "65mm Round Drive").maleTo == None
  {
    Female100();
    RoundDriveFemale();
    RoundDriveNoMale();
  }

  /**
   * A Female to Male adapter onto a drive with no male part, on a head the
   * matrix lists that is not 75mm wide: the stub entry is a placeholder,
   * whose None name passes the guard on the entry and then has no `lower`.
   */
  lemma MissingStubRaisesOn(s: Sides)
    requires s.maleTo.None? && s.femaleFrom != ""
    requires HasKey(StiffeningMatrix, s.femaleFrom) && MmNumber(s.femaleFrom) != 75
    ensures AdapterRing(s, FemaleToMale) == Fail(AttributeError)
  {
  }

  /** The 100mm square drive onto the 65mm round drive, Female to Male, raises `AttributeError`. */
  lemma MissingStubRaises()
    ensures HasKey(FemaleParts, "100mm Square Drive") && HasKey(FemaleParts, "65mm Round Drive")
    ensures AdapterRing(SidesOf("100mm Square Drive", "65mm Round Drive"), FemaleToMale) == Fail(AttributeError)
  {
    RoundDriveSides();
    var s := SidesOf("100mm Square Drive", "65mm Round Drive");
    Head100Listed();
    MissingStubRaisesOn(s);
  }

  /**
   * The ring rule as its guards evidently intend: a placeholder entry
   * counts as no part (""), so a missing stub or head gives no ring instead
   * of raising.
   */
  function StiffeningRingIntended(driveFrom: Option<string>, driveTo: Option<string>, couplingType: string)
    : (r: Option<Line>)
    ensures var asWritten := StiffeningRing(driveFrom, driveTo, couplingType);
      asWritten.Ok? ==> r == asWritten.value
    ensures var (stub, drive) := StubAndDrive(driveFrom, driveTo, couplingType);
      drive.Some? && HasKey(StiffeningMatrix, drive.value) && MmNumber(drive.value) != 75 && stub.None? ==>
        r == Some(NoLine)
  {
    var (stub, drive) := StubAndDrive(driveFrom, driveTo, couplingType);
    var d := if drive.Some? then drive.value else "";
    var st := if stub.Some? then stub.value else "";
    if MmNumber(d) == 75 then Some(Line(HeadRing, 1.0))
    else
      match Get(StiffeningMatrix, d)
      case None => None
      case Some(row) => Some(StubRing(row, st))
  }

  /** With the intended guard a mixed adapter missing its stub gets the `(None, 0)` placeholder. */
  lemma MissingStubIntended(s: Sides)
    requires s.maleTo.None? && s.femaleFrom != ""
    requires HasKey(StiffeningMatrix, s.femaleFrom) && MmNumber(s.femaleFrom) != 75
    ensures var p := TypeParts(s, FemaleToMale);
      StiffeningRingIntended(EntryName(Entry(p.fromPart)), EntryName(Entry(p.toPart)), FemaleToMale) == Some(NoLine)
  {
  }

  // ---------------------------------------------------------------- the adapter's bill

  /**
   * The count the Lift Lug attribute gives: `int` of its leading number, 0.0
   * without one. A leading decimal such as "2.5" is matched whole and `int`
   * rejects its text with `ValueError`.
   */
  function LiftLugCount(attr: string): (r: Result<real>)
    ensures r.Fail? <==> LeadingNumber(attr).Some? && LeadingNumber(attr).value.frac != ""
    ensures r.Fail? ==> r.error == ValueError
    ensures LeadingNumber(attr).None? ==> r == Ok(0.0)
    ensures r.Ok? ==> r.value >= 0.0
  {
    match LeadingNumber(attr)
    case None => Ok(0.0)
    case Some(t) => if t.frac != "" then Fail(ValueError) else Ok(ParseNat(t.whole) as real)
  }

  /** A whole number written at the start of the attribute is the count. */
  lemma LiftLugWritten(n: nat, rest: string)
    requires rest == [] || (!IsDigit(rest[0]) && rest[0] != '.')
    ensures LiftLugCount(NatText(n) + rest) == Ok(n as real)
  {
    LeadingWhole(n, rest);
    NatTextRoundTrip(n);
  }

  /** A decimal written at the start of the attribute raises `ValueError`. */
  lemma LiftLugDecimalRaises(n: nat, frac: string, rest: string)
    requires frac != [] && AllDigits(frac)
    ensures LiftLugCount(NatText(n) + "." + frac + rest) == Fail(ValueError)
  {
    LeadingDecimal(n, frac, rest);
  }

  /**
   * The adapter's lift-lug line: present whenever the attribute is set, even
   * when it holds no number (quantity 0.0 then).
   */
  function AdapterLiftLug(attr: string): (r: Result<Line>)
    ensures r.Fail? <==> LiftLugCount(attr).Fail?
    ensures r.Ok? ==> (r.value == NoLine <==> attr == "")
    ensures r.Ok? && attr != "" ==> r.value == Line("Lift lug", LiftLugCount(attr).value)
  {
    match LiftLugCount(attr)
    case Fail(e) => Fail(e)
    case Ok(q) => Ok(if attr != "" then Line("Lift lug", q) else NoLine)
  }

  /** The candidate list of an adapter, in the order the rule lists it, before the placeholders are dropped. */
  function AdapterList(p: Parts, ring: Option<Line>, reducer: string, lug: Line): seq<Line>
  {
    [Entry(p.fromPart), Entry(p.toPart), Entry(p.basePlate), Line(Reducer(reducer), 1.0),
     if ring.Some? then ring.value else NoLine, lug]
  }

  /**
   * `_get_high_tensile_adapter_components`: the drive-head parts (a drive
   * without a female part raises `TypeError`), the stiffening ring (which
   * may raise), the lift lug (a decimal raises `ValueError`), the reducer;
   * the named lines are kept.
   */
  method Components(fromDrive: string, toDrive: string, adapterType: string, reducer: string, liftLug: string)
    returns (r: Result<seq<Line>>)
    ensures r.Fail? <==> (!HasKey(FemaleParts, fromDrive) || !HasKey(FemaleParts, toDrive)
      || AdapterRing(SidesOf(fromDrive, toDrive), adapterType).Fail? || LiftLugCount(liftLug).Fail?)
    ensures r.Fail? ==>
      if !HasKey(FemaleParts, fromDrive) || !HasKey(FemaleParts, toDrive) then r.error == TypeError
      else if AdapterRing(SidesOf(fromDrive, toDrive), adapterType).Fail? then
        r.error == AdapterRing(SidesOf(fromDrive, toDrive), adapterType).error
      else r.error == ValueError
    ensures r.Ok? ==> var s := SidesOf(fromDrive, toDrive);
      r.value == KeepNamed(AdapterList(TypeParts(s, adapterType), AdapterRing(s, adapterType).value, reducer,
                                       AdapterLiftLug(liftLug).value))
  {
    var parts := DriveHead(fromDrive, toDrive, adapterType);
    if parts.Fail? {
      return Fail(parts.error);
    }
    var ring := StiffeningRing(EntryName(parts.value[0]), EntryName(parts.value[1]), adapterType);
    if ring.Fail? {
      return Fail(ring.error);
    }
    var lug := AdapterLiftLug(liftLug);
    if lug.Fail? {
      return Fail(lug.error);
    }
    var lines := [parts.value[0], parts.value[1], parts.value[2], Line(Reducer(reducer), 1.0),
                  if ring.value.Some? then ring.value.value else NoLine, lug.value];
    return Ok(KeepNamed(lines));
  }

  /** A Male to Male adapter's bill has no base plate and no ring, whatever its drives and reducer. */
  lemma MaleToMaleBill(s: Sides, reducer: string, lug: Line)
    ensures AdapterRing(s, MaleToMale) == Ok(None)
    ensures var l := AdapterList(TypeParts(s, MaleToMale), None, reducer, lug);
      l[2] == NoLine && l[4] == NoLine
  {
  }

  /** A set Lift Lug attribute always puts a lift-lug line on the bill, unless it raises. */
  lemma LiftLugListed(p: Parts, ring: Option<Line>, reducer: string, liftLug: string)
    requires AdapterLiftLug(liftLug).Ok? && liftLug != ""
    ensures Line("Lift lug", LiftLugCount(liftLug).value) in KeepNamed(AdapterList(p, ring, reducer, AdapterLiftLug(liftLug).value))
  {
    var l := AdapterList(p, ring, reducer, AdapterLiftLug(liftLug).value);
    assert l[5] in l;
  }
}
