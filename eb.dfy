/**
 * Extension bar (product_bom.py): the drive head, the centre tube with its
 * base plates and stubs, the gussets, the collar and the lift lug of a rigid
 * or telescopic extension bar.
 *
 * The bar's length in metres (the number before "m" in the "Length"
 * attribute) is a parameter: reading it from the text is not part of this
 * model.
 */
module ExtensionBar {
  import opened BomWrappers
  import opened PyNum
  import opened PyText
  import opened PyRegex
  import opened Bom
  import opened AugerParts
  import HighTensileAdapter

  /**
   * One square drive and its entries in the rule's tables: the heights of its
   * drive head, base plate and stub in millimetres, its base plate and its
   * stub. The drive is "{mm}mm Square{make}".
   */
  datatype DriveRow = DriveRow(mm: nat, make: string, headMm: nat, plateMm: nat, stubMm: nat,
                               basePlate: string, stub: string)

  /**
   * The nine drives. The rule keeps one dict per column (`DRIVE_HEAD`,
   * `DRIVE_HEAD_HEIGHTS`, `BASE_PLATE`, `STUB`, `STUB_DHEAD`, `STUB_2`,
   * `DH_BP_2`, `F_FEMALE`, `M_MALE`), all over these drives in this order; the
   * 75mm drive has no base plate.
   */
  const Drives: seq<DriveRow> := [
    DriveRow(75, "", 150, 0, 40, "", "75mm Square Extension Bar Stubb"),
    DriveRow(100, "", 175, 25, 50, "Base Plate - 100mm Head", "100mm square Stubb"),
    DriveRow(110, "", 240, 25, 40, "Base Plate - 110mm Head", "110mm Drive Stubb"),
    DriveRow(130, "", 260, 32, 40, "Base Plate - 130mm Head", "130mm Stubb"),
    DriveRow(130, " Digga", 260, 32, 40, "Base Plate - 130mm Head", "130mm Stubb - Digga"),
    DriveRow(150, "", 260, 32, 60, "Base Plate - 150mm Head", "150mm Drive Stub"),
    DriveRow(150, " IMT", 260, 32, 60, "Base Plate - 150mm Head", "150mm IMT Stub"),
    DriveRow(200, " Bauer", 457, 32, 60, "Base Plate - 200mm Head", "200mm Bauer Drive Stubb"),
    DriveRow(200, " MAIT", 345, 32, 60, "Base Plate - 200mm Head ", "200mm MAIT Square Stub")
  ]

  /** "75mm Square", "130mm Square Digga", ... */
  function Size(d: DriveRow): string
  {
    NatText(d.mm) + ("mm Square" + d.make)
  }

  /** The drive head of a drive: its size, with "Digga" written "DIGGA". */
  function HeadName(d: DriveRow): string
  {
    "Drive Head - " + (NatText(d.mm) + ("mm Square" + Tag(d.make)))
  }

  /** How a make is written in a drive head's name. */
  function Tag(make: string): string
  {
    if make == " Digga" then " DIGGA" else make
  }

  /** The attributes whose values name a drive. */
  datatype Column = DriveColumn | FemaleColumn | MaleColumn | AdaptorColumn

  /** The attribute value that names drive `d` in column `c`. */
  function Key(d: DriveRow, c: Column): string
  {
    match c
    case DriveColumn => Size(d) + " Drive"
    case FemaleColumn => "to " + Size(d) + " Drive (Female to Female)"
    case MaleColumn => "to " + Size(d) + " Drive (Male to Male)"
    case AdaptorColumn => "to " + Size(d) + " Stub"
  }

  /** The first of `rows` whose key in column `c` is `key`. */
  function Find(rows: seq<DriveRow>, c: Column, key: string): (r: Option<DriveRow>)
    ensures r.None? <==> forall i :: 0 <= i < |rows| ==> Key(rows[i], c) != key
    ensures r.Some? ==> r.value in rows && Key(r.value, c) == key
  {
    if rows == [] then None
    else if Key(rows[0], c) == key then Some(rows[0])
    else Find(rows[1..], c, key)
  }

  /** `TABLE.get(value)` for any of the per-drive dicts. */
  function Row(c: Column, key: string): Option<DriveRow>
  {
    Find(Drives, c, key)
  }

  /** No two drives share a size and a make. */
  lemma SameRow(d: DriveRow, e: DriveRow)
    requires d in Drives && e in Drives && d.mm == e.mm && d.make == e.make
    ensures d == e
  {
  }

  /** Equal strings with the same ends have the same middle. */
  lemma Middle(p: string, x: string, y: string, s: string)
    requires p + x + s == p + y + s
    ensures x == y
  {
    assert |x| == |y|;
    assert x == (p + x + s)[|p|..|p| + |x|];
    assert y == (p + y + s)[|p|..|p| + |y|];
  }

  /** A size is written one way only. */
  lemma SizeInjective(d: DriveRow, e: DriveRow)
    requires Size(d) == Size(e)
    ensures d.mm == e.mm && d.make == e.make
  {
    DigitsThen(NatText(d.mm), "mm Square" + d.make, NatText(e.mm), "mm Square" + e.make);
    NatTextInjective(d.mm, e.mm);
    Middle("mm Square", d.make, e.make, "");
  }

  /** A key is its drive's size between words fixed by the column. */
  lemma KeySize(d: DriveRow, e: DriveRow, c: Column)
    requires Key(d, c) == Key(e, c)
    ensures Size(d) == Size(e)
  {
    match c
    case DriveColumn =>
      assert "" + Size(d) + " Drive" == Key(d, c);
      assert "" + Size(e) + " Drive" == Key(e, c);
      Middle("", Size(d), Size(e), " Drive");
    case FemaleColumn => Middle("to ", Size(d), Size(e), " Drive (Female to Female)");
    case MaleColumn => Middle("to ", Size(d), Size(e), " Drive (Male to Male)");
    case AdaptorColumn => Middle("to ", Size(d), Size(e), " Stub");
  }

  /** Each column names each drive differently. */
  lemma KeyInjective(d: DriveRow, e: DriveRow, c: Column)
    requires d in Drives && e in Drives && Key(d, c) == Key(e, c)
    ensures d == e
  {
    KeySize(d, e, c);
    SizeInjective(d, e);
    SameRow(d, e);
  }

  /** Looking up a drive's own key finds that drive. */
  lemma RowOfKey(d: DriveRow, c: Column)
    requires d in Drives
    ensures Row(c, Key(d, c)) == Some(d)
  {
    KeyInjective(Row(c, Key(d, c)).value, d, c);
  }

  /** Different drives have different drive heads. */
  lemma HeadNameInjective(d: DriveRow, e: DriveRow)
    requires d in Drives && e in Drives && HeadName(d) == HeadName(e)
    ensures d == e
  {
    var tagD := Tag(d.make);
    var tagE := Tag(e.make);
    Middle("Drive Head - ", NatText(d.mm) + ("mm Square" + tagD), NatText(e.mm) + ("mm Square" + tagE), "");
    DigitsThen(NatText(d.mm), "mm Square" + tagD, NatText(e.mm), "mm Square" + tagE);
    NatTextInjective(d.mm, e.mm);
    Middle("mm Square", tagD, tagE, "");
    SameRow(d, e);
  }

  /** The size in a drive's name is its size in millimetres. */
  lemma DriveMm(d: DriveRow)
    ensures MmNumber(Key(d, DriveColumn)) == d.mm
  {
    assert Key(d, DriveColumn) == NatText(d.mm) + "mm" + (" Square" + d.make + " Drive");
    SearchBeforeWritten(d.mm, "mm", " Square" + d.make + " Drive");
  }

  /** The size in a female end's name is the size of its drive. */
  lemma FemaleMm(d: DriveRow)
    ensures MmNumber(Key(d, FemaleColumn)) == d.mm
  {
    var t := NatText(d.mm) + "mm" + (" Square" + d.make + " Drive (Female to Female)");
    assert Key(d, FemaleColumn) == "to " + t;
    assert forall i :: 0 <= i < |"to "| ==> !IsDigit("to "[i]);
    SearchBeforeSkip("to ", t, "mm");
    SearchBeforeWritten(d.mm, "mm", " Square" + d.make + " Drive (Female to Female)");
  }

  /** `_get_eb_drive_head`: `DRIVE_HEAD.get(drive, '')` */
  function DriveHead(drive: string): (r: string)
    ensures r != "" <==> Row(DriveColumn, drive).Some?
  {
    HeadOf(Row(DriveColumn, drive))
  }

  /** `_get_eb_female_gusset_dhead`: `F_FEMALE.get(female, '')` */
  function FemaleHead(female: string): (r: string)
    ensures r != "" <==> Row(FemaleColumn, female).Some?
  {
    HeadOf(Row(FemaleColumn, female))
  }

  /** `_get_eb_male_stub_dhead`: `M_MALE.get(male, '')` */
  function MaleHead(male: string): (r: string)
    ensures r != "" <==> Row(MaleColumn, male).Some?
  {
    HeadOf(Row(MaleColumn, male))
  }

  /** The head of a drive found in one of the tables, "" for none. */
  function HeadOf(r: Option<DriveRow>): (h: string)
    ensures h != "" <==> r.Some?
  {
    if r.Some? then HeadName(r.value) else ""
  }

  const DiggaFemale := "to 130mm Square Digga Drive (Female to Female)"

  /**
   * `_get_drive_head_from_female`: no head for an unset, "N/A" or custom end;
   * the DIGGA head for the Digga end; otherwise "Drive Head - " and the text
   * between "to" and "Drive".
   */
  function HeadFromFemale(female: string): (r: string)
    ensures female == "" || female == "N/A" || Contains(female, "Custom") ==> r == ""
    ensures r != "" ==> |r| >= 13 && r[..13] == "Drive Head - "
  {
    if female == "" || female == "N/A" || Contains(female, "Custom") then ""
    else if female == DiggaFemale then "Drive Head - 130mm Square DIGGA"
    else match SearchBetween(female, "to", "Drive")
      case Some(x) => "Drive Head - " + x
      case None => ""
  }

  /** A string that contains "Custom" holds a capital C. */
  lemma CustomHasC(s: string)
    requires Contains(s, "Custom")
    ensures 'C' in s
  {
    var i :| 0 <= i <= |s| && OccursAt(s, "Custom", i);
    assert s[i] == s[i..i + 6][0];
  }

  /** The Digga drive's female end and head, written out. */
  lemma DiggaNames()
    ensures Key(Drives[4], FemaleColumn) == DiggaFemale
    ensures HeadName(Drives[4]) == "Drive Head - 130mm Square DIGGA"
  {
    DiggaEnd();
    DiggaHeadName();
  }

  lemma DiggaEnd()
    ensures Key(Drives[4], FemaleColumn) == DiggaFemale
  {
    DiggaSize();
    DiggaWords();
  }

  lemma DiggaWords()
    ensures DiggaFemale == "to " + "130mm Square Digga" + " Drive (Female to Female)"
  {
    assert "to " + "130mm Square Digga" == "to 130mm Square Digga";
  }

  lemma DiggaHeadName()
    ensures HeadName(Drives[4]) == "Drive Head - 130mm Square DIGGA"
  {
    Text130();
    assert HeadName(Drives[4]) == "Drive Head - " + ("130" + ("mm Square" + " DIGGA"));
  }

  /** "130" written out. */
  lemma Text130()
    ensures NatText(130) == "130"
  {
    assert NatText(1) == "1";
    assert NatText(13) == NatText(1) + "3" == "13";
    assert NatText(130) == NatText(13) + "0";
  }

  lemma DiggaSize()
    ensures Drives[4].mm == 130 && Drives[4].make == " Digga"
    ensures Size(Drives[4]) == "130mm Square Digga"
  {
    Text130();
  }

  /** The makes of the nine drives. */
  lemma Makes(d: DriveRow)
    requires d in Drives
    ensures d.make in {"", " Digga", " IMT", " Bauer", " MAIT"}
    ensures d.make == " Digga" ==> d == Drives[4]
  {
  }

  /** The makes other than Digga hold no capital C or D and no line break, and do not end in whitespace. */
  lemma MakeChars(make: string)
    requires make in {"", " IMT", " Bauer", " MAIT"}
    ensures 'C' !in make && 'D' !in make && '\n' !in make
    ensures make == [] || !IsSpace(make[|make| - 1])
  {
  }

  /** A number's digits hold no letter and no whitespace. */
  lemma DigitChars(n: nat)
    ensures var t := NatText(n); 'C' !in t && 'D' !in t && '\n' !in t && !IsSpace(t[0])
  {
    var t := NatText(n);
    assert forall i :: 0 <= i < |t| ==> IsDigit(t[i]);
  }

  /**
   * A size other than Digga's holds no capital C or D and no line break, and
   * neither starts nor ends with whitespace.
   */
  lemma SizeChars(d: DriveRow)
    requires d in Drives && d.make != " Digga"
    ensures var x := Size(d);
      x != [] && !IsSpace(x[0]) && !IsSpace(x[|x| - 1]) && 'C' !in x && 'D' !in x && '\n' !in x
  {
    Makes(d);
    MakeChars(d.make);
    DigitChars(d.mm);
    var w := "mm Square" + d.make;
    assert 'C' !in "mm Square" && 'D' !in "mm Square" && '\n' !in "mm Square";
    assert w[|w| - 1] == if d.make == [] then 'e' else d.make[|d.make| - 1];
  }

  /** The female end's name, split where the pattern reads it. */
  lemma FemaleWords(x: string)
    ensures "to " + x + " Drive (Female to Female)" == "to" + " " + x + " " + "Drive" + " (Female to Female)"
  {
  }

  /** The Digga end is read by its own case. */
  lemma DiggaHead()
    ensures HeadFromFemale(DiggaFemale) == "Drive Head - 130mm Square DIGGA"
  {
    DiggaHasNoC();
    if Contains(DiggaFemale, "Custom") {
      CustomHasC(DiggaFemale);
    }
  }

  /** The Digga end holds no capital C, so it is not a custom end. */
  lemma DiggaHasNoC()
    ensures 'C' !in DiggaFemale
  {
    DiggaWords();
    assert 'C' !in "to ";
    assert 'C' !in "130mm Square Digga";
    assert 'C' !in " Drive (Female to Female)";
  }

  /** Every other end is read by the pattern. */
  lemma PatternHead(d: DriveRow)
    requires d in Drives && d.make != " Digga"
    ensures HeadFromFemale(Key(d, FemaleColumn)) == HeadName(d)
  {
    var x := Size(d);
    var f := "to " + x + " Drive (Female to Female)";
    assert f == Key(d, FemaleColumn);
    SizeChars(d);
    assert !Contains(f, "Custom") by {
      assert 'C' !in "to " && 'C' !in " Drive (Female to Female)";
      if Contains(f, "Custom") {
        CustomHasC(f);
      }
    }
    assert f != DiggaFemale by {
      if f == DiggaFemale {
        DiggaNames();
        KeyInjective(d, Drives[4], FemaleColumn);
      }
    }
    FemaleWords(x);
    SearchBetweenWritten("to", x, "Drive", " (Female to Female)");
    assert HeadName(d) == "Drive Head - " + x;
  }

  /**
   * The head read from each of the nine female ends is the head `F_FEMALE`
   * lists for it, so the two ways the rule finds the far head agree.
   */
  lemma FemaleHeadAgrees(d: DriveRow)
    requires d in Drives
    ensures HeadFromFemale(Key(d, FemaleColumn)) == HeadName(d) == FemaleHead(Key(d, FemaleColumn))
  {
    RowOfKey(d, FemaleColumn);
    Makes(d);
    if d.make == " Digga" {
      DiggaNames();
      DiggaHead();
    } else {
      PatternHead(d);
    }
  }

  /** The stub of a drive found in one of the tables, "" for none. */
  function StubOf(r: Option<DriveRow>): string
  {
    if r.Some? then r.value.stub else ""
  }

  /** The base plate of a drive found in `BASE_PLATE`, "" for none. */
  function PlateOf(r: Option<DriveRow>): string
  {
    if r.Some? then r.value.basePlate else ""
  }

  /**
   * What the rule reads from its tables and attributes for one bar: the
   * bar's own drive, the drives named by the female end, the male end and
   * the adaptor, the head read from the female end's text, and the sizes in
   * millimetres of the female end and the bar's drive.
   */
  datatype Reading = Reading(bar: Option<DriveRow>, far: Option<DriveRow>, other: Option<DriveRow>,
                             adaptor: Option<DriveRow>, farHead: string, farMm: nat, barMm: nat)

  function Read(drive: string, female: string, male: string, adaptor: string): Reading
  {
    Reading(Row(DriveColumn, drive), Row(FemaleColumn, female), Row(MaleColumn, male), Row(AdaptorColumn, adaptor),
            HeadFromFemale(female), MmNumber(female), MmNumber(drive))
  }

  /** A length in millimetres, in metres. */
  function Metres(mm: nat): real
  {
    mm as real / 1000.0
  }

  /** The heights of a drive's head, base plate and stub in millimetres. */
  datatype Heights = Heights(head: nat, plate: nat, stub: nat)

  /** The heights of a listed drive; zero for a drive the tables do not list. */
  function HeightsOf(r: Option<DriveRow>): Heights
  {
    if r.None? then Heights(0, 0, 0) else Heights(r.value.headMm, r.value.plateMm, r.value.stubMm)
  }

  const Inner := "Telescopic Inner"
  const Outer := "Telescopic Outer"
  const Rigid := "Rigid"

  /**
   * How much shorter than the bar its centre tube is, in millimetres: the
   * heights of the parts at its ends. A telescopic inner bar loses its head;
   * an outer bar its head and stub; a rigid bar with a female end both heads
   * and both base plates, with a male end both stubs, and otherwise its head,
   * stub and base plate.
   */
  function Cut(barType: string, female: string, male: string, t: Reading): nat
  {
    var bar := HeightsOf(t.bar);
    var far := HeightsOf(t.far);
    var other := HeightsOf(t.other);
    if barType == Inner then bar.head
    else if barType == Outer then bar.head + bar.stub
    else if female != "" && male == "" then bar.head + far.head + bar.plate + far.plate
    else if male != "" && female == "" then bar.stub + other.stub
    else bar.head + bar.stub + bar.plate
  }

  /** The base plates, far head and far stub only a rigid bar has. */
  function RigidParts(barType: string, female: string, male: string, t: Reading): seq<Line>
  {
    if barType != Rigid then []
    else
      var near := HeadOf(t.bar);
      var twoPlates := female != "" && t.farMm != t.barMm && male == "";
      (if twoPlates then [Line(AugerParts.BasePlateName(t.farMm), 1.0)] else [])
      + (if male == "" then [Line(PlateOf(t.bar), if female != "" && !twoPlates then 2.0 else 1.0)] else [])
      + (if female != "" && near != t.farHead && male == "" then [Line(t.farHead, 1.0)] else [])
      + (if male != "" && near != HeadOf(t.other) then [Line(StubOf(t.other), 1.0)] else [])
  }

  /** The bar's own stub, or the adaptor's, when the bar has no female end. */
  function StubParts(barType: string, female: string, male: string, adaptor: string, t: Reading): seq<Line>
  {
    if barType == Inner || female != "" then []
    else if adaptor != "" then [Line(StubOf(t.adaptor), 1.0)]
    else
      var farStub := barType == Rigid && male != "" && HeadOf(t.bar) != HeadOf(t.other);
      [Line(StubOf(t.bar), if male != "" && !farStub then 2.0 else 1.0)]
  }

  /** The centre tube and the parts at its ends, from what was read; an unlisted end raises `IndexError`. */
  function TubeParts(barType: string, centre: string, female: string, male: string, adaptor: string,
                     lengthM: real, t: Reading): (r: Result<seq<Line>>)
    ensures r.Fail? <==> (female != "" && t.far.None?) || (male != "" && t.other.None?)
    ensures r.Fail? ==> r.error == IndexError
    ensures r.Ok? ==> r.value != [] && r.value[0] == Line(centre, Round2(lengthM - Metres(Cut(barType, female, male, t))))
  {
    if (female != "" && t.far.None?) || (male != "" && t.other.None?) then Fail(IndexError)
    else Ok([Line(centre, Round2(lengthM - Metres(Cut(barType, female, male, t))))]
            + RigidParts(barType, female, male, t) + StubParts(barType, female, male, adaptor, t))
  }

  /** With both ends listed, the tube comes first, then the rigid bar's parts, then the stubs. */
  lemma TubePartsListed(barType: string, centre: string, female: string, male: string, adaptor: string,
                        lengthM: real, t: Reading)
    requires female != "" ==> t.far.Some?
    requires male != "" ==> t.other.Some?
    ensures TubeParts(barType, centre, female, male, adaptor, lengthM, t)
         == Ok([Line(centre, Round2(lengthM - Metres(Cut(barType, female, male, t))))]
               + RigidParts(barType, female, male, t) + StubParts(barType, female, male, adaptor, t))
  {
  }

  /** A female or male end the tables do not list. */
  predicate UnlistedEnd(female: string, male: string)
  {
    (female != "" && Row(FemaleColumn, female).None?) || (male != "" && Row(MaleColumn, male).None?)
  }

  /**
   * `_get_extension_bar_center_tube_at2`: the centre tube, as long as the bar
   * less the parts at its ends, then the parts. A female or male end the
   * tables do not list raises `IndexError` when its heights are read.
   */
  function CentreTube(barType: string, centre: string, drive: string, female: string, male: string,
                      lengthM: real, adaptor: string): (r: Result<seq<Line>>)
    ensures r.Fail? <==> UnlistedEnd(female, male)
    ensures r.Fail? ==> r.error == IndexError
  {
    TubeParts(barType, centre, female, male, adaptor, lengthM, Read(drive, female, male, adaptor))
  }

  /** The shorter of two lengths rounds no longer. */
  lemma ShorterRounds(x: real, mm: nat)
    ensures Round2(x - Metres(mm)) <= Round2(x)
  {
    Round2Monotone(x - Metres(mm), x);
  }

  /** The centre tube is never longer than the bar. */
  lemma TubeWithinBar(barType: string, centre: string, female: string, male: string, adaptor: string,
                      lengthM: real, t: Reading)
    requires TubeParts(barType, centre, female, male, adaptor, lengthM, t).Ok?
    ensures TubeParts(barType, centre, female, male, adaptor, lengthM, t).value[0].qty <= Round2(lengthM)
  {
    ShorterRounds(lengthM, Cut(barType, female, male, t));
  }

  /** A longer bar has a centre tube at least as long. */
  lemma TubeGrowsWithBar(barType: string, centre: string, female: string, male: string, adaptor: string,
                         shorter: real, longer: real, t: Reading)
    requires shorter <= longer
    requires TubeParts(barType, centre, female, male, adaptor, shorter, t).Ok?
    ensures TubeParts(barType, centre, female, male, adaptor, longer, t).Ok?
    ensures TubeParts(barType, centre, female, male, adaptor, shorter, t).value[0].qty
         <= TubeParts(barType, centre, female, male, adaptor, longer, t).value[0].qty
  {
    var c := Metres(Cut(barType, female, male, t));
    Round2Monotone(shorter - c, longer - c);
  }

  /** A telescopic inner bar has its centre tube and nothing else. */
  lemma InnerTubeOnly(centre: string, female: string, male: string, adaptor: string, lengthM: real, t: Reading)
    requires TubeParts(Inner, centre, female, male, adaptor, lengthM, t).Ok?
    ensures TubeParts(Inner, centre, female, male, adaptor, lengthM, t).value
         == [Line(centre, Round2(lengthM - Metres(HeightsOf(t.bar).head)))]
  {
  }

  /** An unset end is found in no table. */
  lemma UnsetEnd(c: Column)
    ensures Row(c, "") == None
  {
  }

  /** What is read for a rigid bar of drive `d` with the female end of drive `e`. */
  lemma ReadFemaleEnd(d: DriveRow, e: DriveRow)
    requires d in Drives && e in Drives
    ensures Read(Key(d, DriveColumn), Key(e, FemaleColumn), "", "")
         == Reading(Some(d), Some(e), None, None, HeadName(e), e.mm, d.mm)
  {
    RowOfKey(d, DriveColumn);
    RowOfKey(e, FemaleColumn);
    UnsetEnd(MaleColumn);
    UnsetEnd(AdaptorColumn);
    FemaleHeadAgrees(e);
    DriveMm(d);
    FemaleMm(e);
  }

  /** What is read for a bar of drive `d` with the male end of drive `e`. */
  lemma ReadMaleEnd(d: DriveRow, e: DriveRow)
    requires d in Drives && e in Drives
    ensures Read(Key(d, DriveColumn), "", Key(e, MaleColumn), "")
         == Reading(Some(d), None, Some(e), None, "", 0, d.mm)
  {
    RowOfKey(d, DriveColumn);
    RowOfKey(e, MaleColumn);
    UnsetEnd(FemaleColumn);
    UnsetEnd(AdaptorColumn);
    DriveMm(d);
  }

  /**
   * The parts a rigid bar of drive `d` with the female end of drive `e`
   * lists after its tube: ends of the same size share one base plate, two of
   * them; ends of different sizes take one plate each, the far one first; a
   * far head other than the bar's own is listed once.
   */
  function FemaleEndList(d: DriveRow, e: DriveRow): seq<Line>
  {
    (if d.mm != e.mm then [Line(AugerParts.BasePlateName(e.mm), 1.0)] else [])
    + [Line(d.basePlate, if d.mm == e.mm then 2.0 else 1.0)]
    + (if d != e then [Line(HeadName(e), 1.0)] else [])
  }

  /** A rigid bar with a female end: its tube loses both heads and both base plates. */
  lemma FemaleEndParts(d: DriveRow, e: DriveRow, centre: string, female: string, lengthM: real)
    requires d in Drives && e in Drives && female != ""
    ensures TubeParts(Rigid, centre, female, "", "", lengthM, Reading(Some(d), Some(e), None, None, HeadName(e), e.mm, d.mm))
         == Ok([Line(centre, Round2(lengthM - Metres(d.headMm + e.headMm + d.plateMm + e.plateMm)))] + FemaleEndList(d, e))
  {
    var t := Reading(Some(d), Some(e), None, None, HeadName(e), e.mm, d.mm);
    var tube := Line(centre, Round2(lengthM - Metres(d.headMm + e.headMm + d.plateMm + e.plateMm)));
    TubePartsListed(Rigid, centre, female, "", "", lengthM, t);
    assert Cut(Rigid, female, "", t) == d.headMm + e.headMm + d.plateMm + e.plateMm;
    assert StubParts(Rigid, female, "", "", t) == [];
    FemaleEndRigidParts(d, e, female);
    assert [tube] + FemaleEndList(d, e) + [] == [tube] + FemaleEndList(d, e);
  }

  /** The base plates and far head of a rigid bar with a female end. */
  lemma FemaleEndRigidParts(d: DriveRow, e: DriveRow, female: string)
    requires d in Drives && e in Drives && female != ""
    ensures RigidParts(Rigid, female, "", Reading(Some(d), Some(e), None, None, HeadName(e), e.mm, d.mm))
         == FemaleEndList(d, e)
  {
    if HeadName(d) == HeadName(e) {
      HeadNameInjective(d, e);
    }
  }

  /**
   * A rigid bar with a male end and no adaptor: its tube loses both stubs;
   * the same drive at both ends takes two of its stub, different drives one
   * stub each, the far one first.
   */
  lemma MaleEndParts(d: DriveRow, e: DriveRow, centre: string, male: string, lengthM: real)
    requires d in Drives && e in Drives && male != ""
    ensures TubeParts(Rigid, centre, "", male, "", lengthM, Reading(Some(d), None, Some(e), None, "", 0, d.mm))
         == Ok([Line(centre, Round2(lengthM - Metres(d.stubMm + e.stubMm)))]
               + (if d != e then [Line(e.stub, 1.0)] else [])
               + [Line(d.stub, if d == e then 2.0 else 1.0)])
  {
    var t := Reading(Some(d), None, Some(e), None, "", 0, d.mm);
    if HeadName(d) == HeadName(e) {
      HeadNameInjective(d, e);
    }
    assert RigidParts(Rigid, "", male, t) == if d != e then [Line(e.stub, 1.0)] else [];
    assert StubParts(Rigid, "", male, "", t) == [Line(d.stub, if d == e then 2.0 else 1.0)];
  }

  /**
   * The imperative form of `_get_extension_bar_center_tube_at2`: the tables
   * are read first, then the tube's length, then the parts are appended one
   * by one.
   */
  method CentreTubeParts(barType: string, centre: string, drive: string, female: string, male: string,
                         lengthM: real, adaptor: string) returns (r: Result<seq<Line>>)
    ensures r == CentreTube(barType, centre, drive, female, male, lengthM, adaptor)
  {
    var t := Read(drive, female, male, adaptor);
    r := AppendParts(barType, centre, female, male, lengthM, adaptor, t);
  }

  /** The heights and parts of `_get_extension_bar_center_tube_at2`, once the tables are read. */
  method AppendParts(barType: string, centre: string, female: string, male: string,
                     lengthM: real, adaptor: string, t: Reading) returns (r: Result<seq<Line>>)
    ensures r == TubeParts(barType, centre, female, male, adaptor, lengthM, t)
  {
    if female != "" && t.far.None? {
      return Fail(IndexError);
    }
    if male != "" && t.other.None? {
      return Fail(IndexError);
    }
    var cut := CutLength(barType, female, male, t);
    var components := [Line(centre, Round2(lengthM - Metres(cut)))];
    ghost var tube := components;
    var stubQty;
    components, stubQty := AppendRigid(barType, female, male, t, components);
    ghost var rigid := components;
    if barType != Inner && female == "" {
      if adaptor != "" {
        components := components + [Line(StubOf(t.adaptor), 1.0)];
      } else {
        components := components + [Line(StubOf(t.bar), stubQty)];
      }
    }
    assert components == rigid + StubParts(barType, female, male, adaptor, t);
    TubePartsListed(barType, centre, female, male, adaptor, lengthM, t);
    return Ok(components);
  }

  /** The heights the centre tube loses, read row by row from the listed ends. */
  method CutLength(barType: string, female: string, male: string, t: Reading) returns (cut: nat)
    requires female != "" ==> t.far.Some?
    requires male != "" ==> t.other.Some?
    ensures cut == Cut(barType, female, male, t)
  {
    var head, plate, stub := 0, 0, 0;
    if t.bar.Some? {
      head, plate, stub := t.bar.value.headMm, t.bar.value.plateMm, t.bar.value.stubMm;
    }
    var farHead, farPlate, maleStub := 0, 0, 0;
    if female != "" {
      farHead, farPlate := t.far.value.headMm, t.far.value.plateMm;
    }
    if male != "" {
      maleStub := t.other.value.stubMm;
    }
    if barType == Inner {
      cut := head;
    } else if barType == Outer {
      cut := head + stub;
    } else if female != "" && male == "" {
      cut := head + farHead + plate + farPlate;
    } else if male != "" && female == "" {
      cut := stub + maleStub;
    } else {
      cut := head + stub + plate;
    }
  }

  /**
   * The base plates, far head and far stub a rigid bar appends after its
   * tube, and the quantity its own stub is then listed with.
   */
  method AppendRigid(barType: string, female: string, male: string, t: Reading, tube: seq<Line>)
      returns (components: seq<Line>, stubQty: real)
    ensures components == tube + RigidParts(barType, female, male, t)
    ensures stubQty == if male != "" && !(barType == Rigid && HeadOf(t.bar) != HeadOf(t.other)) then 2.0 else 1.0
  {
    var near := HeadOf(t.bar);
    var far := t.farHead;
    components := tube;
    var plateQty := if female != "" then 2.0 else 1.0;
    stubQty := if male != "" then 2.0 else 1.0;
    if barType == Rigid {
      if female != "" && t.farMm != t.barMm && male == "" {
        plateQty := 1.0;
        components := components + [Line(AugerParts.BasePlateName(t.farMm), 1.0)];
      }
      if male == "" {
        components := components + [Line(PlateOf(t.bar), plateQty)];
      }
      if female != "" && near != far && male == "" {
        components := components + [Line(far, 1.0)];
      }
      if male != "" && near != HeadOf(t.other) {
        stubQty := 1.0;
        components := components + [Line(StubOf(t.other), 1.0)];
      }
    }
  }

  /** `_get_eb_collar`: the collar of a square-billet centre tube, "" for any other tube. */
  function Collar(centre: string): (r: string)
    ensures r != "" <==> centre == "4140 75mm square billet" || centre == "4140 100mm square billet"
  {
    if centre == "4140 75mm square billet" then "Extension Bar Collar - 75mm"
    else if centre == "4140 100mm square billet" then "Extension Bar Collar - 100mm"
    else ""
  }

  /** The 273mm WT14 hollow bar as the extension-bar gusset table spells it for every head group. */
  const Hollow273 := "Hollow bar - OD273mm WT14"

  /**
   * `_get_extension_bar_center_tube_gusset`: the gusset of a drive head on a
   * centre tube. Its tables are those of the drill tools, except that the
   * 130mm table lists the 273mm WT14 hollow bar as `Hollow273` where the
   * drill tools write it in lower case.
   */
  function BarGusset(head: string, tube: string): (r: Line)
    ensures r != NoLine ==> r.qty == 1.0 && GussetGroup(head).Some?
    ensures GussetGroup(head) == Some(Head130) && tube == Hollow273 ==> r == Line(GussetName(Gusset(130, 273)), 1.0)
    ensures GussetGroup(head) == Some(Head130) && tube == "hollow bar - OD273mm WT14" ==> r == NoLine
    ensures tube != Hollow273 && tube != "hollow bar - OD273mm WT14" ==> r == AugerParts.TubeGusset(head, tube)
  {
    if GussetGroup(head) == Some(Head130) && tube == Hollow273 then Line(GussetName(Gusset(130, 273)), 1.0)
    else if GussetGroup(head) == Some(Head130) && tube == "hollow bar - OD273mm WT14" then NoLine
    else AugerParts.TubeGusset(head, tube)
  }

  /**
   * The lift-lug line of an extension bar: present only when the attribute
   * starts with a number; a decimal raises `ValueError`.
   */
  function BarLiftLug(attr: string): (r: Result<Line>)
    ensures r.Fail? <==> HighTensileAdapter.LiftLugCount(attr).Fail?
    ensures r.Fail? ==> r.error == ValueError
    ensures r.Ok? ==> (r.value == NoLine <==> LeadingNumber(attr).None?)
    ensures r.Ok? && r.value != NoLine ==> r.value == Line("Lift lug", HighTensileAdapter.LiftLugCount(attr).value)
  {
    match HighTensileAdapter.LiftLugCount(attr)
    case Fail(e) => Fail(e)
    case Ok(q) => Ok(if LeadingNumber(attr).Some? then Line("Lift lug", q) else NoLine)
  }

  /** `_get_eb_telescopic_inner_components`, once the tables are read: head, tube, collar and lift lug. */
  function InnerBar(centre: string, female: string, male: string, adaptor: string, lengthM: real,
                    t: Reading, lug: Result<Line>): (r: Result<seq<Line>>)
    ensures r.Fail? <==> TubeParts(Inner, centre, female, male, adaptor, lengthM, t).Fail? || lug.Fail?
    ensures r.Fail? ==> r.error == IndexError || (lug.Fail? && r.error == lug.error)
  {
    match TubeParts(Inner, centre, female, male, adaptor, lengthM, t)
    case Fail(e) => Fail(e)
    case Ok(tube) =>
      match lug
      case Fail(e) => Fail(e)
      case Ok(l) => Ok(KeepNamed([Line(HeadOf(t.bar), 1.0)] + tube + [Line(Collar(centre), 1.0), l]))
  }

  /** `_get_eb_telescopic_outer_components`, once the tables are read: head, tube and stub, gusset and lift lug. */
  function OuterBar(centre: string, female: string, male: string, adaptor: string, lengthM: real,
                    t: Reading, gusset: Line, lug: Result<Line>): (r: Result<seq<Line>>)
    ensures r.Fail? <==> TubeParts(Outer, centre, female, male, adaptor, lengthM, t).Fail? || lug.Fail?
    ensures r.Fail? ==> r.error == IndexError || (lug.Fail? && r.error == lug.error)
  {
    match TubeParts(Outer, centre, female, male, adaptor, lengthM, t)
    case Fail(e) => Fail(e)
    case Ok(tube) =>
      match lug
      case Fail(e) => Fail(e)
      case Ok(l) => Ok(KeepNamed([Line(HeadOf(t.bar), 1.0)] + tube + [gusset, l]))
  }

  /** The quantity of the bar's own head on a rigid bar: two when the female end carries the same head. */
  function HeadQty(female: string, t: Reading): real
  {
    if (female != "" && HeadOf(t.bar) != t.farHead) || female == "" then 1.0 else 2.0
  }

  /** The quantity of the bar's own gusset on a rigid bar. */
  function GussetQty(female: string, t: Reading): real
  {
    if (female != "" && HeadOf(t.bar) != t.farHead && t.farMm != t.barMm) || female == "" then 1.0 else 2.0
  }

  /**
   * `_get_eb_rigid_components`, once the tables are read: the bar's head
   * unless it has a male end, the tube and its parts, the lift lug, and,
   * without a male end, the bar's gusset and, for a female end of another
   * size, the female end's gusset.
   */
  function RigidBar(barType: string, centre: string, female: string, male: string, adaptor: string, lengthM: real,
                    t: Reading, nearGusset: Line, farGusset: Line, lug: Result<Line>): (r: Result<seq<Line>>)
    ensures r.Fail? <==> TubeParts(barType, centre, female, male, adaptor, lengthM, t).Fail? || lug.Fail?
    ensures r.Fail? ==> r.error == IndexError || (lug.Fail? && r.error == lug.error)
  {
    match TubeParts(barType, centre, female, male, adaptor, lengthM, t)
    case Fail(e) => Fail(e)
    case Ok(tube) =>
      match lug
      case Fail(e) => Fail(e)
      case Ok(l) =>
        var head := if male == "" then Line(HeadOf(t.bar), HeadQty(female, t)) else NoLine;
        var near := if nearGusset.name != "" && male == "" then Line(nearGusset.name, GussetQty(female, t)) else NoLine;
        var gussets := if barType != Inner && male == "" then [near] + (if t.farMm != t.barMm then [farGusset] else []) else [];
        Ok(KeepNamed([head] + tube + [l] + gussets))
  }

  /**
   * `_get_extension_bar_components`: the components of an extension bar from
   * its attributes, by type. An unlisted female or male end raises
   * `IndexError`; a decimal lift-lug count raises `ValueError`.
   */
  function Components(barType: string, drive: string, adaptor: string, female: string, male: string,
                      centre: string, lengthM: real, liftLug: string): (r: Result<seq<Line>>)
    ensures r.Fail? <==> UnlistedEnd(female, male) || HighTensileAdapter.LiftLugCount(liftLug).Fail?
    ensures r.Fail? ==> r.error == if UnlistedEnd(female, male) then IndexError else ValueError
  {
    var t := Read(drive, female, male, adaptor);
    var lug := BarLiftLug(liftLug);
    if barType == Inner then InnerBar(centre, female, male, adaptor, lengthM, t, lug)
    else if barType == Outer then OuterBar(centre, female, male, adaptor, lengthM, t, BarGusset(HeadOf(t.bar), centre), lug)
    else RigidBar(barType, centre, female, male, adaptor, lengthM, t,
                  BarGusset(HeadOf(t.bar), centre), BarGusset(HeadOf(t.far), centre), lug)
  }

  /** A named line at the head of a list stays at the head of the filtered list. */
  lemma KeepFirst(x: Line, s: seq<Line>)
    requires Named(x)
    ensures KeepNamed([x] + s) == [x] + KeepNamed(s)
  {
    assert ([x] + s)[1..] == s;
  }

  /**
   * A rigid bar with a male end lists no drive head and no gusset: only its
   * tube with the stubs, and the lift lug.
   */
  lemma RigidMaleHasNoHead(barType: string, centre: string, female: string, male: string, adaptor: string,
                           lengthM: real, t: Reading, nearGusset: Line, farGusset: Line, lug: Result<Line>)
    requires male != ""
    requires RigidBar(barType, centre, female, male, adaptor, lengthM, t, nearGusset, farGusset, lug).Ok?
    ensures RigidBar(barType, centre, female, male, adaptor, lengthM, t, nearGusset, farGusset, lug).value
         == KeepNamed(TubeParts(barType, centre, female, male, adaptor, lengthM, t).value + [lug.value])
  {
    PlaceholderHead(TubeParts(barType, centre, female, male, adaptor, lengthM, t).value, lug.value);
  }

  /** The placeholder standing for a missing head drops out of the named filter. */
  lemma PlaceholderHead(tube: seq<Line>, l: Line)
    ensures KeepNamed([NoLine] + tube + [l] + []) == KeepNamed(tube + [l])
  {
    assert [NoLine] + tube + [l] + [] == [NoLine] + (tube + [l]);
    KeepAppend([NoLine], tube + [l], Named);
  }

  /**
   * Without a male end, a rigid bar's list starts with its own drive head,
   * twice when the female end carries the same head and once otherwise.
   */
  lemma RigidHeadQty(barType: string, centre: string, female: string, adaptor: string,
                     lengthM: real, t: Reading, nearGusset: Line, farGusset: Line, lug: Result<Line>)
    requires HeadOf(t.bar) != ""
    requires RigidBar(barType, centre, female, "", adaptor, lengthM, t, nearGusset, farGusset, lug).Ok?
    ensures RigidBar(barType, centre, female, "", adaptor, lengthM, t, nearGusset, farGusset, lug).value[0]
         == Line(HeadOf(t.bar), if female != "" && HeadOf(t.bar) == t.farHead then 2.0 else 1.0)
  {
    var tube := TubeParts(barType, centre, female, "", adaptor, lengthM, t).value;
    var head := Line(HeadOf(t.bar), HeadQty(female, t));
    var near := if nearGusset.name != "" then Line(nearGusset.name, GussetQty(female, t)) else NoLine;
    var gussets := if barType != Inner then [near] + (if t.farMm != t.barMm then [farGusset] else []) else [];
    assert [head] + tube + [lug.value] + gussets == [head] + (tube + [lug.value] + gussets);
    KeepFirst(head, tube + [lug.value] + gussets);
  }

  /**
   * Without a male end and on any bar but a telescopic inner one, the rigid
   * builder lists the bar's gusset, twice when the female end has the same
   * head or the same size, and the female end's gusset when its size differs.
   */
  lemma RigidGussets(barType: string, centre: string, female: string, adaptor: string,
                     lengthM: real, t: Reading, nearGusset: Line, farGusset: Line, lug: Result<Line>)
    requires barType != Inner
    requires RigidBar(barType, centre, female, "", adaptor, lengthM, t, nearGusset, farGusset, lug).Ok?
    ensures nearGusset.name != "" ==>
      Line(nearGusset.name, if female != "" && (HeadOf(t.bar) == t.farHead || t.farMm == t.barMm) then 2.0 else 1.0)
        in RigidBar(barType, centre, female, "", adaptor, lengthM, t, nearGusset, farGusset, lug).value
    ensures farGusset.name != "" && t.farMm != t.barMm ==>
      farGusset in RigidBar(barType, centre, female, "", adaptor, lengthM, t, nearGusset, farGusset, lug).value
  {
    var tube := TubeParts(barType, centre, female, "", adaptor, lengthM, t).value;
    var head := Line(HeadOf(t.bar), HeadQty(female, t));
    var near := if nearGusset.name != "" then Line(nearGusset.name, GussetQty(female, t)) else NoLine;
    var gussets := [near] + (if t.farMm != t.barMm then [farGusset] else []);
    var all := [head] + tube + [lug.value] + gussets;
    assert near == all[|all| - |gussets|];
    if t.farMm != t.barMm {
      assert farGusset == all[|all| - 1];
    }
  }

  /** A telescopic inner bar lists its head, its tube less the head, its collar and its lift lug, and nothing else. */
  lemma InnerBarParts(centre: string, female: string, male: string, adaptor: string, lengthM: real,
                      t: Reading, lug: Result<Line>)
    requires InnerBar(centre, female, male, adaptor, lengthM, t, lug).Ok?
    ensures InnerBar(centre, female, male, adaptor, lengthM, t, lug).value
         == KeepNamed([Line(HeadOf(t.bar), 1.0), Line(centre, Round2(lengthM - Metres(HeightsOf(t.bar).head))),
                       Line(Collar(centre), 1.0), lug.value])
  {
    InnerTubeOnly(centre, female, male, adaptor, lengthM, t);
    var h := Line(HeadOf(t.bar), 1.0);
    var tube := Line(centre, Round2(lengthM - Metres(HeightsOf(t.bar).head)));
    assert [h] + [tube] + [Line(Collar(centre), 1.0), lug.value] == [h, tube, Line(Collar(centre), 1.0), lug.value];
  }

  /**
   * A telescopic outer bar with neither a female end nor an adaptor lists its
   * own stub, twice when it has a male end, and a tube less its head and stub.
   */
  lemma OuterOwnStub(centre: string, male: string, lengthM: real, t: Reading, gusset: Line, lug: Result<Line>)
    requires t.bar.Some? && t.bar.value.stub != ""
    requires OuterBar(centre, "", male, "", lengthM, t, gusset, lug).Ok?
    ensures Line(t.bar.value.stub, if male != "" then 2.0 else 1.0) in OuterBar(centre, "", male, "", lengthM, t, gusset, lug).value
    ensures centre != "" ==>
      Line(centre, Round2(lengthM - Metres(t.bar.value.headMm + t.bar.value.stubMm)))
        in OuterBar(centre, "", male, "", lengthM, t, gusset, lug).value
  {
    var stub := Line(t.bar.value.stub, if male != "" then 2.0 else 1.0);
    var tube := Line(centre, Round2(lengthM - Metres(t.bar.value.headMm + t.bar.value.stubMm)));
    TubePartsListed(Outer, centre, "", male, "", lengthM, t);
    var all := [Line(HeadOf(t.bar), 1.0)] + ([tube] + [] + [stub]) + [gusset, lug.value];
    assert all[1] == tube && all[2] == stub;
  }

  /**
   * The whole rule on a rigid bar of drive `d` with the female end of drive
   * `e`: its list starts with its own head, two of them exactly when both
   * ends are the same drive.
   */
  lemma RigidFemaleEndHead(d: DriveRow, e: DriveRow, centre: string, lengthM: real, liftLug: string)
    requires d in Drives && e in Drives
    requires Components(Rigid, Key(d, DriveColumn), "", Key(e, FemaleColumn), "", centre, lengthM, liftLug).Ok?
    ensures Components(Rigid, Key(d, DriveColumn), "", Key(e, FemaleColumn), "", centre, lengthM, liftLug).value[0]
         == Line(HeadName(d), if d == e then 2.0 else 1.0)
  {
    var t := Read(Key(d, DriveColumn), Key(e, FemaleColumn), "", "");
    ReadFemaleEnd(d, e);
    if HeadName(d) == HeadName(e) {
      HeadNameInjective(d, e);
    }
    RigidHeadQty(Rigid, centre, Key(e, FemaleColumn), "", lengthM, t,
                 BarGusset(HeadOf(t.bar), centre), BarGusset(HeadOf(t.far), centre), BarLiftLug(liftLug));
  }

  /** An attribute that does not start with a number gives an extension bar no lift lug, where an adapter gets one of quantity 0. */
  lemma LugNeedsNumber()
    ensures BarLiftLug("Yes") == Ok(NoLine)
    ensures HighTensileAdapter.AdapterLiftLug("Yes") == Ok(Line("Lift lug", 0.0))
  {
    YesHasNoNumber();
  }

  lemma YesHasNoNumber()
    ensures LeadingNumber("Yes").None?
  {
    var s := "Yes";
    assert s[0] == 'Y';
    LetterFirst(s);
  }

  /** A text that starts with a character that is neither a space nor a digit has no leading number. */
  lemma LetterFirst(s: string)
    requires s != [] && !IsSpace(s[0]) && !IsDigit(s[0])
    ensures LeadingNumber(s).None?
  {
    assert StripStart(s) == s;
  }
}
