/**
 * The core-barrel bill of materials of product_product.py
 * (`_create_bom_for_variant` and the teeth-table helpers it calls).
 *
 * The teeth count comes from a table of teeth per diameter (read from a CSV
 * file, given here as a map): the row of the diameter itself, else of the
 * largest smaller diameter, else of the smallest one. The components are a
 * fixed list into which the gusset, the teeth and the ears are inserted.
 */
module CoreBarrel {
  import opened BomWrappers
  import opened PyText
  import opened PyRegex
  import opened Bom
  import BarrelParts

  // ---------------------------------------------------------------------------
  // _normalize_attribute
  // ---------------------------------------------------------------------------

  /** `re.sub(r'\s+', ' ', s)`: every run of whitespace becomes one space. */
  function Collapse(s: string): (r: string)
    ensures |r| <= |s|
    ensures OnlySpace(r)
    decreases |s|
  {
    if s == [] then []
    else if IsSpace(s[0]) then [' '] + Collapse(StripStart(s))
    else [s[0]] + Collapse(s[1..])
  }

  /** The only whitespace character in `s` is the plain space. */
  predicate OnlySpace(s: string)
  {
    forall i :: 0 <= i < |s| && IsSpace(s[i]) ==> s[i] == ' '
  }

  /** `.lower().replace(' ', '_').replace('/', '_')` on one character. */
  function Fold(c: char): char
  {
    if c == ' ' || c == '/' then '_' else LowerChar(c)
  }

  function FoldAll(s: string): (r: string)
    ensures |r| == |s| && forall i :: 0 <= i < |s| ==> r[i] == Fold(s[i])
  {
    if s == [] then [] else [Fold(s[0])] + FoldAll(s[1..])
  }

  /** `_normalize_attribute`: collapse and strip the whitespace, lower-case, spaces and slashes to `_`. */
  function Normalize(s: string): string
  {
    FoldAll(StripEnd(StripStart(Collapse(s))))
  }

  /** A normalised attribute holds no whitespace, no slash and no capital letter. */
  predicate IsKey(s: string)
  {
    forall i :: 0 <= i < |s| ==> !IsSpace(s[i]) && s[i] != '/' && !('A' <= s[i] <= 'Z')
  }

  lemma FoldKey(s: string)
    requires OnlySpace(s)
    ensures IsKey(FoldAll(s))
  {
    forall i | 0 <= i < |s|
      ensures !IsSpace(FoldAll(s)[i]) && FoldAll(s)[i] != '/' && !('A' <= FoldAll(s)[i] <= 'Z')
    {
      assert FoldAll(s)[i] == Fold(s[i]);
    }
  }

  /** Text without whitespace is left as it is by the collapsing and the stripping. */
  lemma {:induction false} KeyUnchanged(s: string)
    requires IsKey(s)
    ensures Collapse(s) == s && StripStart(s) == s && StripEnd(s) == s
  {
    if s != [] {
      assert IsKey(s[1..]) by {
        forall i | 0 <= i < |s[1..]| ensures !IsSpace(s[1..][i]) && s[1..][i] != '/' && !('A' <= s[1..][i] <= 'Z') {
          assert s[1..][i] == s[i + 1];
        }
      }
      KeyUnchanged(s[1..]);
      assert !IsSpace(s[|s| - 1]);
    }
  }

  /** Folding a key changes nothing. */
  lemma {:induction false} FoldKeyUnchanged(s: string)
    requires IsKey(s)
    ensures FoldAll(s) == s
  {
    forall i | 0 <= i < |s| ensures FoldAll(s)[i] == s[i] {
      assert FoldAll(s)[i] == Fold(s[i]);
    }
  }

  /** Normalising yields a key, and normalising a key again changes nothing. */
  lemma NormalizeIdempotent(s: string)
    ensures IsKey(Normalize(s))
    ensures Normalize(Normalize(s)) == Normalize(s)
  {
    var n := Normalize(s);
    var c := Collapse(s);
    var t := StripEnd(StripStart(c));
    assert OnlySpace(t) by {
      forall i | 0 <= i < |t| && IsSpace(t[i]) ensures t[i] == ' ' {
        assert t[i] == c[|c| - |StripStart(c)| + i];
      }
    }
    FoldKey(t);
    KeyUnchanged(n);
    FoldKeyUnchanged(n);
  }

  /** Whitespace in `s` is single spaces between other characters. */
  predicate Tidy(s: string)
  {
    forall i :: 0 <= i < |s| && IsSpace(s[i]) ==> s[i] == ' ' && 0 < i < |s| - 1 && !IsSpace(s[i + 1])
  }

  /** Single spaces: every whitespace character is a space that no whitespace follows. */
  predicate SingleSpaces(s: string)
  {
    forall i :: 0 <= i < |s| && IsSpace(s[i]) ==> s[i] == ' ' && (i + 1 == |s| || !IsSpace(s[i + 1]))
  }

  lemma SingleSpacesTail(s: string)
    requires s != [] && SingleSpaces(s)
    ensures SingleSpaces(s[1..])
    ensures IsSpace(s[0]) ==> s[0] == ' ' && (|s| == 1 || !IsSpace(s[1]))
  {
    forall i | 0 <= i < |s[1..]| && IsSpace(s[1..][i])
      ensures s[1..][i] == ' ' && (i + 1 == |s[1..]| || !IsSpace(s[1..][i + 1]))
    {
      assert s[1..][i] == s[i + 1];
    }
  }

  lemma {:induction false} SingleSpacesCollapse(s: string)
    requires SingleSpaces(s)
    ensures Collapse(s) == s
  {
    if s != [] {
      var t := s[1..];
      SingleSpacesTail(s);
      SingleSpacesCollapse(t);
      if IsSpace(s[0]) {
        assert StripStart(t) == t;
        assert Collapse(s) == [' '] + t;
      } else {
        assert Collapse(s) == [s[0]] + t;
      }
      assert s == [s[0]] + t;
    }
  }

  /** An attribute whose whitespace is single inner spaces normalises character by character. */
  lemma TidyNormalize(s: string)
    requires Tidy(s)
    ensures Normalize(s) == FoldAll(s)
  {
    SingleSpacesCollapse(s);
  }

  lemma ExampleTidy()
    ensures Tidy("22mm Teeth")
  {
    var s := "22mm Teeth";
    forall i | 0 <= i < |s| && i != 4 ensures !IsSpace(s[i]) {
      assert s[i] in "2mTeth";
    }
  }

  lemma ExampleFold()
    ensures FoldAll("22mm Teeth") == "22mm_teeth"
  {
    var s := "22mm Teeth";
    var r := FoldAll(s);
    FoldChars();
    forall i | 0 <= i < |s| ensures r[i] == "22mm_teeth"[i] {
      assert r[i] == Fold(s[i]);
    }
  }

  /** How the characters of "22mm Teeth" fold. */
  lemma FoldChars()
    ensures Fold('2') == '2' && Fold('m') == 'm' && Fold(' ') == '_'
    ensures Fold('T') == 't' && Fold('e') == 'e' && Fold('h') == 'h'
  {
  }

  /** "22mm Teeth" is looked up as the `22mm_teeth` column. */
  lemma NormalizeExample()
    ensures Normalize("22mm Teeth") == "22mm_teeth"
  {
    ExampleTidy();
    TidyNormalize("22mm Teeth");
    ExampleFold();
  }

  // ---------------------------------------------------------------------------
  // _get_teeth_for_diameter
  // ---------------------------------------------------------------------------

  /** A row of the teeth table: teeth count per normalised teeth type. */
  type Row = map<string, int>

  /** `row.get(teeth_type, 0)`. */
  function Count(row: Row, teethType: string): int
  {
    if teethType in row then row[teethType] else 0
  }

  /**
   * The diameter whose row is used for `dia`: `dia` itself or the largest
   * smaller one when there is one, else the smallest diameter of the table.
   */
  predicate IsClosest(keys: set<int>, dia: int, k: int)
  {
    k in keys
    && ((k <= dia && forall j :: j in keys && j <= dia ==> j <= k)
        || (dia < k && forall j :: j in keys ==> dia < j && k <= j))
  }

  /** At most one diameter is the closest. */
  lemma ClosestUnique(keys: set<int>, dia: int, a: int, b: int)
    requires IsClosest(keys, dia, a) && IsClosest(keys, dia, b)
    ensures a == b
  {
  }

  /** A diameter in the table is its own closest. */
  lemma ClosestOfListed(keys: set<int>, dia: int)
    requires dia in keys
    ensures IsClosest(keys, dia, dia)
  {
  }

  /** The least element of a non-empty set. */
  lemma {:induction false} MinOf(s: set<int>) returns (k: int)
    requires s != {}
    ensures k in s && forall j :: j in s ==> k <= j
  {
    if forall y :: y !in s {
      assert false;
    }
    var x :| x in s;
    if s == {x} {
      k := x;
    } else {
      var m := MinOf(s - {x});
      k := if x < m then x else m;
      forall j | j in s ensures k <= j {
        if j != x { assert j in s - {x}; }
      }
    }
  }

  /** The greatest element of a non-empty set. */
  lemma {:induction false} MaxOf(s: set<int>) returns (k: int)
    requires s != {}
    ensures k in s && forall j :: j in s ==> j <= k
  {
    if forall y :: y !in s {
      assert false;
    }
    var x :| x in s;
    if s == {x} {
      k := x;
    } else {
      var m := MaxOf(s - {x});
      k := if m < x then x else m;
      forall j | j in s ensures j <= k {
        if j != x { assert j in s - {x}; }
      }
    }
  }

  /** Every non-empty table has a closest diameter for any diameter. */
  lemma ClosestExists(keys: set<int>, dia: int)
    requires keys != {}
    ensures exists k :: IsClosest(keys, dia, k)
  {
    var below := set j | j in keys && j <= dia;
    if below != {} {
      var k := MaxOf(below);
      forall j | j in keys && j <= dia ensures j <= k {
        assert j in below;
      }
      assert IsClosest(keys, dia, k);
    } else {
      var k := MinOf(keys);
      forall j | j in keys ensures dia < j {
        assert j !in below;
      }
      assert IsClosest(keys, dia, k);
    }
  }

  ghost function ClosestKey(keys: set<int>, dia: int): (k: int)
    requires keys != {}
    ensures IsClosest(keys, dia, k)
  {
    ClosestExists(keys, dia);
    var k :| IsClosest(keys, dia, k);
    k
  }

  predicate Increasing(s: seq<int>)
  {
    forall i, j :: 0 <= i < j < |s| ==> s[i] < s[j]
  }

  /** `sorted(teeth_data.keys())`: the diameters in increasing order. */
  method SortedKeys(data: map<int, Row>) returns (ks: seq<int>)
    ensures Increasing(ks)
    ensures forall k :: k in ks <==> k in data
  {
    var rest := data.Keys;
    ks := [];
    while rest != {}
      invariant Increasing(ks)
      invariant rest <= data.Keys
      invariant forall k :: k in data ==> (k in ks <==> k !in rest)
      invariant forall k :: k in ks ==> k in data
      invariant forall i, k :: 0 <= i < |ks| && k in rest ==> ks[i] < k
      decreases |rest|
    {
      ghost var least := MinOf(rest);
      var m :| m in rest && forall j :: j in rest ==> m <= j;
      ks := ks + [m];
      rest := rest - {m};
    }
  }

  /**
   * `_get_teeth_for_diameter`: the count of the teeth type in the row of the
   * closest diameter (0 for a type the row lacks). An empty table raises
   * `IndexError`.
   */
  method TeethForDiameter(dia: int, teethType: string, data: map<int, Row>) returns (r: Result<int>)
    ensures data == map[] ==> r == Fail(IndexError)
    ensures data != map[] ==> r == Ok(Count(data[ClosestKey(data.Keys, dia)], teethType))
  {
    if dia in data {
      ClosestOfListed(data.Keys, dia);
      ClosestUnique(data.Keys, dia, dia, ClosestKey(data.Keys, dia));
      return Ok(Count(data[dia], teethType));
    }
    var closest: Option<int> := None;
    var sorted := SortedKeys(data);
    var i := 0;
    while i < |sorted|
      invariant 0 <= i <= |sorted|
      invariant forall j :: 0 <= j < i ==> sorted[j] <= dia
      invariant closest == (if i == 0 then None else Some(sorted[i - 1]))
    {
      if dia < sorted[i] {
        break;
      }
      closest := Some(sorted[i]);
      i := i + 1;
    }
    if closest.None? {
      if |sorted| == 0 {
        assert data.Keys == {};
        return Fail(IndexError);
      }
      closest := Some(sorted[0]);
      assert IsClosest(data.Keys, dia, sorted[0]) by {
        forall j | j in data.Keys ensures dia < j && sorted[0] <= j {
          var n :| 0 <= n < |sorted| && sorted[n] == j;
        }
      }
    } else {
      assert IsClosest(data.Keys, dia, sorted[i - 1]) by {
        forall j | j in data.Keys && j <= dia ensures j <= sorted[i - 1] {
          var n :| 0 <= n < |sorted| && sorted[n] == j;
          if n >= i {
            assert i < |sorted| && dia < sorted[i];
          }
        }
      }
    }
    assert data.Keys != {};
    ClosestUnique(data.Keys, dia, closest.value, ClosestKey(data.Keys, dia));
    return Ok(Count(data[closest.value], teethType));
  }

  /** `_compute_number_of_teeth`, as a value: 0 for a diameter without digits. */
  ghost function TeethCount(diameter: string, teeth: string, data: map<int, Row>): Result<int>
  {
    match FirstNumber(diameter)
    case None => Ok(0)
    case Some(d) => if data == map[] then Fail(IndexError) else Ok(Count(data[ClosestKey(data.Keys, d)], Normalize(teeth)))
  }

  /** `_compute_number_of_teeth`: the table's count for the diameter's first number and the normalised teeth type. */
  method NumberOfTeeth(diameter: string, teeth: string, data: map<int, Row>) returns (r: Result<int>)
    ensures r == TeethCount(diameter, teeth, data)
  {
    var dia := FirstNumber(diameter);
    if dia.None? {
      return Ok(0);
    }
    r := TeethForDiameter(dia.value, Normalize(teeth), data);
  }

  // ---------------------------------------------------------------------------
  // _create_bom_for_variant
  // ---------------------------------------------------------------------------

  /** The core barrel's drive-head part: the square heads only, "" for any other. */
  function DrivePart(h: BarrelParts.DriveHead): (r: string)
    ensures r == "" || r[0] == 'D'
    ensures h != BarrelParts.LoDrill4 ==> r == BarrelParts.DrivePart(h)
  {
    if h == BarrelParts.LoDrill4 then "" else BarrelParts.DrivePart(h)
  }

  /**
   * The duty grade the core barrel's profiling tests pick for a head and a
   * type, the tests in the order they are written (grades as in
   * `BarrelParts.ProfGroupName`); `None` when no test matches.
   */
  function CoreGrade(h: BarrelParts.DriveHead, t: BarrelParts.BarrelType): Option<nat>
  {
    if (h == BarrelParts.Square100 && t == BarrelParts.HeavyDuty) || (h == BarrelParts.Square110 && t == BarrelParts.HeavyDuty)
      || (h == BarrelParts.Square130 && t == BarrelParts.Standard) || (h == BarrelParts.Digga130 && t == BarrelParts.Standard)
      || (h == BarrelParts.Square150 && t == BarrelParts.Standard) || (h == BarrelParts.Imt150 && t == BarrelParts.Standard)
      || (h == BarrelParts.Bauer200 && t == BarrelParts.Lightweight) || (h == BarrelParts.Mait200 && t == BarrelParts.Lightweight)
    then Some(3)
    else if (h == BarrelParts.Square130 && t == BarrelParts.HeavyDuty) || (h == BarrelParts.Digga130 && t == BarrelParts.HeavyDuty)
      || (h == BarrelParts.Square150 && t == BarrelParts.HeavyDuty) || (h == BarrelParts.Imt150 && t == BarrelParts.HeavyDuty)
      || (h == BarrelParts.Bauer200 && t == BarrelParts.Standard) || (h == BarrelParts.Mait200 && t == BarrelParts.Standard)
    then Some(4)
    else if (h == BarrelParts.Bauer200 && t == BarrelParts.HeavyDuty) || (h == BarrelParts.Mait200 && t == BarrelParts.HeavyDuty)
    then Some(5)
    else if h == BarrelParts.Square75 && t == BarrelParts.Lightweight then Some(0)
    else if (h == BarrelParts.Square75 && t == BarrelParts.Standard) || (h == BarrelParts.Square100 && t == BarrelParts.Lightweight)
      || (h == BarrelParts.Square110 && t == BarrelParts.Lightweight)
    then Some(1)
    else if (h == BarrelParts.Square75 && t == BarrelParts.HeavyDuty) || (h == BarrelParts.Square100 && t == BarrelParts.Standard)
      || (h == BarrelParts.Square110 && t == BarrelParts.Standard) || (h == BarrelParts.Square130 && t == BarrelParts.Lightweight)
      || (h == BarrelParts.Digga130 && t == BarrelParts.Lightweight) || (h == BarrelParts.Square150 && t == BarrelParts.Lightweight)
      || (h == BarrelParts.Imt150 && t == BarrelParts.Lightweight)
    then Some(2)
    else None
  }

  /** The profiling combination of the core barrel: its grade's list of heads, "" when none. */
  function Combination(h: BarrelParts.DriveHead, t: BarrelParts.BarrelType): string
  {
    match CoreGrade(h, t)
    case Some(g) => BarrelParts.ProfGroupName(BarrelParts.Duty(g))
    case None => ""
  }

  /**
   * The core barrel groups the square heads exactly as the drilling barrel
   * and cleaning bucket do, though its tests run in another order; it has no
   * group for the Lo Drill and custom heads.
   */
  lemma CombinationAgrees(h: BarrelParts.DriveHead, t: BarrelParts.BarrelType)
    ensures h != BarrelParts.LoDrill4 && h != BarrelParts.CustomHead ==> Combination(h, t) == BarrelParts.ProfCombination(h, t)
    ensures h == BarrelParts.LoDrill4 || h == BarrelParts.CustomHead ==> Combination(h, t) == ""
  {
    if h != BarrelParts.LoDrill4 && h != BarrelParts.CustomHead {
      GradeAgrees(h, t);
    } else {
      NoGrade(h, t);
    }
  }

  /** The Lo Drill and custom heads have no core-barrel grade. */
  lemma NoGrade(h: BarrelParts.DriveHead, t: BarrelParts.BarrelType)
    requires h == BarrelParts.LoDrill4 || h == BarrelParts.CustomHead
    ensures CoreGrade(h, t).None?
  {
    match t
    case Lightweight =>
    case Standard =>
    case HeavyDuty =>
    case OtherType =>
  }

  /** The core barrel's grade of a square head is the drilling barrel's duty group. */
  lemma GradeAgrees(h: BarrelParts.DriveHead, t: BarrelParts.BarrelType)
    requires h != BarrelParts.LoDrill4 && h != BarrelParts.CustomHead
    ensures BarrelParts.ProfGroupOf(h, t).None? <==> CoreGrade(h, t).None?
    ensures CoreGrade(h, t).Some? ==> BarrelParts.ProfGroupOf(h, t) == Some(BarrelParts.Duty(CoreGrade(h, t).value))
  {
    match t
    case Lightweight =>
    case Standard =>
    case HeavyDuty =>
    case OtherType =>
  }

  /** The teeth attribute's size code. */
  function TeethAttr(teeth: string): string
  {
    if teeth == "22mm Teeth" || teeth == "22mm Extra Teeth" then "22mm"
    else if teeth == "25mm Teeth" || teeth == "25mm Extra Teeth" then "25mm"
    else if teeth == "38/30 Teeth" then "38/20mm"
    else if teeth == "CJ2 Teeth" then "CJ2"
    else if teeth == "WS20 Teeth" then "WS20"
    else ""
  }

  /** `_get_detault_teeth_combination`: the teeth (`num > 0`) or their holder, "unknown" for an unlisted size. */
  function DefaultTeeth(attr: string, num: int): (r: string)
    ensures r == "unknown" <==> !(attr == "22mm" || attr == "25mm" || attr == "38/20mm" || attr == "CJ2" || attr == "WS20")
  {
    if attr == "22mm" then (if num > 0 then "BC05TB - 22mm Shank Teeth" else "BHR174 - 22mm Round Tooth Holder")
    else if attr == "25mm" then (if num > 0 then "BTK03TB - 25mm Shank Teeth" else "BHR167 - 25mm Round Tooth Holder")
    else if attr == "38/20mm" then (if num > 0 then "BKH105TB - 38/30mm Shank Teeth" else "38/30mm Round Tooth Holder")
    else if attr == "CJ2" then (if num > 0 then "CJ2 Teeth" else "CJ2 Tooth Holder")
    else if attr == "WS20" then (if num > 0 then "WS20 Teeth" else "WS20 Tooth Holder")
    else "unknown"
  }

  /** Every teeth attribute of the list gets a known tooth and holder; any other gets "unknown" for both. */
  lemma TeethAttrKnown(teeth: string)
    ensures var listed := teeth in ["22mm Teeth", "22mm Extra Teeth", "25mm Teeth", "25mm Extra Teeth",
                                    "38/30 Teeth", "CJ2 Teeth", "WS20 Teeth"];
            (DefaultTeeth(TeethAttr(teeth), 0) == "unknown" <==> !listed)
            && (DefaultTeeth(TeethAttr(teeth), 1) == "unknown" <==> !listed)
  {
  }

  /** `\d+mm`: the leftmost number followed by "mm", with the unit; `None` without one. */
  function HeadMm(s: string): (r: Option<string>)
    ensures r.Some? ==> |r.value| >= 3 && r.value[|r.value| - 2..] == "mm"
  {
    if s == [] then None
    else
      var run := DigitRun(s);
      if |run| >= 1 && |s| >= |run| + 2 && s[|run|..|run| + 2] == "mm" then
        var m := run + "mm";
        assert m[|m| - 2..] == "mm";
        Some(m)
      else HeadMm(s[1..])
  }

  /** A head attribute that starts with its size in millimetres names that size. */
  lemma HeadMmWritten(n: nat, rest: string)
    ensures HeadMm(NatText(n) + "mm" + rest) == Some(NatText(n) + "mm")
  {
    var s := NatText(n) + "mm" + rest;
    assert s == NatText(n) + ("mm" + rest);
    DigitRunOf(NatText(n), "mm" + rest);
  }

  /** The core-barrel attributes the builder reads ("" when unset). */
  datatype Attrs = Attrs(diameter: string, height: string, driveHead: string, teeth: string,
                         customization: string, barrelType: string)

  const TemplateName := "Core Barrel"
  const WearStrip := Line("40x8 Flat Bar - Hardfaced Wear Strip", 1.0)
  const RoundBar := Line("12mm Round Bar - Miniflights", 1.0)

  function ProfilingLine(a: Attrs): Line
  {
    var h := BarrelParts.HeadOf(a.driveHead);
    Line("Profiling - " + TemplateName + " " + a.diameter + ", " + a.height + ", " + a.teeth + ", " + a.customization
         + " - " + Combination(h, BarrelParts.TypeOf(a.barrelType)), 1.0)
  }

  /** The gusset: four, named after the head's size ("None" when it has none) and the diameter. */
  function GussetLine(a: Attrs): (l: Line)
    ensures l.qty == 4.0
  {
    var head := if HeadMm(a.driveHead).Some? then HeadMm(a.driveHead).value else "None";
    var kind := if a.teeth in ["22mm Extra Teeth", "22mm Teeth"] then "Core Barrel 22mm Teeth" else "Core Barrel";
    Line("Gusset " + head + " Drive x " + a.diameter + " - " + kind, 4.0)
  }

  function HeadLine(a: Attrs): Line
  {
    Line(DrivePart(BarrelParts.HeadOf(a.driveHead)), 1.0)
  }

  /** Teeth to fit: the table's count, or 1 when the count is not positive. */
  function ProdQty(count: int): (q: int)
    ensures q >= 1 && (count > 0 ==> q == count)
  {
    if count > 0 then count else 1
  }

  /** The teeth and holders: the fixed CJ2/WS20 combination, or the size's holders and teeth, as many as fit. */
  function TeethLines(teeth: string, qty: int): (r: seq<Line>)
    ensures teeth != "CJ2/WS20 Combo Teeth" ==> |r| == 2 && r[0].qty == r[1].qty == qty as real
  {
    if teeth == "CJ2/WS20 Combo Teeth" then
      [Line("WS20 Tooth Holder", 4.0), Line("WS20 Teeth", 4.0), Line("CJ2 Tooth Holder", 1.0), Line("CJ2 Teeth", 1.0)]
    else
      [Line(DefaultTeeth(TeethAttr(teeth), 0), qty as real), Line(DefaultTeeth(TeethAttr(teeth), 1), qty as real)]
  }

  function EarsLines(driveHead: string): seq<Line>
  {
    if driveHead == "130mm Digga Square Head" then [Line("Drive Head EARS - 130mm Square DIGGA", 4.0)]
    else if driveHead == "130mm Square Head" then [Line("Drive Head EARS - 130mm Square", 2.0)]
    else []
  }

  /** `next(i for i, c in enumerate(s) if c == x)`: the first position of `x`. */
  method IndexOf(s: seq<Line>, x: Line) returns (r: Option<nat>)
    ensures r.None? <==> x !in s
    ensures r.Some? ==> r.value < |s| && s[r.value] == x && forall j :: 0 <= j < r.value ==> s[j] != x
  {
    var i := 0;
    while i < |s|
      invariant 0 <= i <= |s|
      invariant forall j :: 0 <= j < i ==> s[j] != x
    {
      if s[i] == x {
        return Some(i);
      }
      i := i + 1;
    }
    return None;
  }

  /** `s` with `x` inserted before position `i`, as `list.insert` does. */
  function Insert(s: seq<Line>, i: nat, x: Line): (r: seq<Line>)
    requires i <= |s|
    ensures |r| == |s| + 1 && r[i] == x && r[..i] == s[..i] && r[i + 1..] == s[i..]
  {
    s[..i] + [x] + s[i..]
  }

  /** Inserting after the three leading lines puts the line first among the rest. */
  lemma InsertAfterLead(lead: seq<Line>, rest: seq<Line>, x: Line)
    requires |lead| == 3
    ensures Insert(lead + rest, 3, x) == lead + ([x] + rest)
  {
    assert (lead + rest)[..3] == lead;
    assert (lead + rest)[3..] == rest;
  }

  /**
   * The list before the teeth and ears go in: profiling, the gusset inserted
   * after it, the drive head, the wear strip and the miniflight bar; and the
   * position just after the drive head.
   */
  method LeadComponents(a: Attrs) returns (c: seq<Line>, at: nat)
    ensures c == [ProfilingLine(a), GussetLine(a), HeadLine(a)] + [WearStrip, RoundBar] && at == 3
  {
    c := [ProfilingLine(a), HeadLine(a), WearStrip, RoundBar];
    var index := IndexOf(c, ProfilingLine(a));
    assert c[0] == ProfilingLine(a);
    c := Insert(c, index.value + 1, GussetLine(a));
    assert c[0] != HeadLine(a) by {
      assert ProfilingLine(a).name[0] == 'P';
    }
    assert c[1] != HeadLine(a);
    index := IndexOf(c, HeadLine(a));
    assert c[2] == HeadLine(a);
    at := index.value + 1;
  }

  /** Inserting each line of `xs`, last first, just after the three lead lines puts them all there in order. */
  method InsertEach(c0: seq<Line>, xs: seq<Line>) returns (c: seq<Line>)
    requires |c0| >= 3
    ensures c == c0[..3] + (xs + c0[3..])
  {
    c := c0;
    var i := |xs|;
    assert c0 == c0[..3] + (xs[i..] + c0[3..]);
    while i > 0
      invariant 0 <= i <= |xs|
      invariant c == c0[..3] + (xs[i..] + c0[3..])
    {
      i := i - 1;
      InsertAfterLead(c0[..3], xs[i + 1..] + c0[3..], xs[i]);
      assert [xs[i]] + (xs[i + 1..] + c0[3..]) == xs[i..] + c0[3..];
      c := Insert(c, 3, xs[i]);
    }
  }

  /**
   * The core barrel's components: profiling, gusset and drive head first,
   * then the teeth and holders, then the ears of a 130mm head, then the wear
   * strip and the miniflight bar. Only an empty teeth table with a diameter
   * that has digits raises (`IndexError`).
   */
  method Components(a: Attrs, data: map<int, Row>) returns (r: Result<seq<Line>>)
    ensures r.Fail? <==> TeethCount(a.diameter, a.teeth, data).Fail?
    ensures r.Ok? ==> r.value == [ProfilingLine(a), GussetLine(a), HeadLine(a)]
                                 + (TeethLines(a.teeth, ProdQty(TeethCount(a.diameter, a.teeth, data).value))
                                    + (EarsLines(a.driveHead) + [WearStrip, RoundBar]))
  {
    var count := NumberOfTeeth(a.diameter, a.teeth, data);
    if count.Fail? {
      return Fail(count.error);
    }
    var qty := ProdQty(count.value);
    var c, at := LeadComponents(a);
    var ears: seq<Line> := [];
    if a.driveHead == "130mm Digga Square Head" {
      ears := [Line("Drive Head EARS - 130mm Square DIGGA", 4.0)];
    } else if a.driveHead == "130mm Square Head" {
      ears := [Line("Drive Head EARS - 130mm Square", 2.0)];
    }
    c := InsertEach(c, ears);
    var teeth: seq<Line>;
    if a.teeth == "CJ2/WS20 Combo Teeth" {
      teeth := [Line("WS20 Tooth Holder", 4.0), Line("WS20 Teeth", 4.0), Line("CJ2 Tooth Holder", 1.0), Line("CJ2 Teeth", 1.0)];
    } else {
      teeth := [Line(DefaultTeeth(TeethAttr(a.teeth), 0), qty as real), Line(DefaultTeeth(TeethAttr(a.teeth), 1), qty as real)];
    }
    c := InsertEach(c, teeth);
    return Ok(c);
  }
}
