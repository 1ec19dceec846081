# Bill-of-materials derivation rules for piling tools

This project models the rule engine an ERP add-on uses to turn a configured
piling-tool product variant into the component lines of its bill of
materials. A variant is a set of attribute values (type, diameter, drive
head, centre tube, flights, teeth, pilot, length, override flag and so on).
For each product family a dispatcher chooses a builder. The builder collects
candidate `(name, quantity)` lines from lookup tables and quantity formulas,
puts `(None, 0)` placeholders where a part does not apply, and then keeps
only the real lines.

The families modelled are the following:

- pile casing;
- bored-pile augers: Dual Rock, Taper Rock, Triad Rock, ZED, Clay/Shale and Blade;
- drilling barrels and cleaning buckets;
- tremie pipes;
- core barrels;
- CFA augers, with their couplings, tubes, flights and teeth;
- extension bars;
- high-tensile adapters.

The repository holds six overlapping revisions of these rules:

- `product_product.py` and `bom_automation_v2.py`. The barrel, bucket and tremie part of `bom_automation_v2.py` is the same text as in `product_product.py`, so it is modelled once and cited for both files.
- `product_bom.py`, which holds the CFA auger, extension bar and high-tensile adapter rules.
- `bom_automation_v1.py` and `bp_bom_automation.py`, which are fragments with their own "Dual Carrier" flight rules.
- `bom_automationv2.py`, which holds early extension-bar and adapter helpers.

Each revision is modelled as it is written. Rules that differ between files
are not merged.

How the model works:

- **Lines.** Component lines are `Bom.Line(name, qty)` values. A quantity is a `real`, and a placeholder is the line named `""`.
- **Filters.** The builders' filters are `Bom.Keep`, `KeepNamed` and `KeepCounted`.
- **Errors.** A Python exception the rules can raise is an error value of `BomWrappers.Result`: `ValidationError`, `TypeError`, `IndexError`, `ValueError`, `ZeroDivisionError`, `AttributeError` or `UnboundLocalError`. The model keeps the point where the source raises, and keeps the order of checks wherever more than one error is possible.
- **Rounding.** Python's `round` is round-half-to-even over the reals (`PyNum.Round`, `Round2`). `//` with a positive divisor is Dafny's `/`.
- **Text.** Number-to-text conversion is `PyText`. The few regular-expression searches the rules rely on are written out as functions (`PyRegex`).
- **Catalogue.** Each catalogue lookup becomes an `inCatalogue: string -> bool` parameter.
- **Loops.** Where the source appends to a list in a loop, the model is a method with a loop, proved against a function that states the result. Examples are the diameter-range resolver, the stock/non-stock flight merge, the CFA coupling collector and the adapter drive-head list.

## Model

| member | source | states |
|---|---|---|
| PyNum.Round | product_bom.py:1159-1161 | Python's `round`: within one half of the number, a tie going to the even integer |
| PyNum.RoundUnique | product_bom.py:1159-1161 | those two properties leave no other integer |
| PyNum.RoundMonotone | product_bom.py:1159-1161 | `round` never reverses the order of two numbers |
| PyNum.Round2 | product_bom.py:584 | `round(x, 2)` is a whole number of hundredths within half a hundredth of the number |
| PyNum.Round2Monotone | product_bom.py:584 | `round(x, 2)` never reverses the order of two numbers |
| PyNum.Floor | product_bom.py:1931 | `math.floor` is the greatest integer not above the number |
| PyNum.Ceil | product_bom.py:1913 | `math.ceil` is the least integer not below the number |
| PyNum.CeilHalf | product_bom.py:1913 | rounding up to a half flight gives a half step at least the number and under half above it |
| PyNum.CeilHalfIsLeast | product_bom.py:1913 | no half step lies between the number and its rounding up |
| PyNum.FloorHalf | product_bom.py:1931 | rounding down to a half flight gives a half step at most the number and less than half below it |
| PyNum.FloorHalfIsGreatest | product_bom.py:1931 | no half step lies between the rounding down and the number |
| PyText.NatText | product_bom.py:1800-1801 | an integer written in an f-string is a non-empty run of digits without a leading zero |
| PyText.NatTextRoundTrip | product_bom.py:1800-1801 | reading back the digits of a written number gives the number |
| PyText.NatTextInjective | product_bom.py:1800-1801 | different numbers are written differently |
| PyText.Lower | product_bom.py:989 | `lower()` on ASCII text keeps the length and lowers each letter A-Z |
| PyRegex.SearchNumber | product_bom.py:1115 | `re.search(prefix + r'(\d+)')` finds nothing exactly when no position matches |
| PyRegex.MmNumber | product_bom.py:906-909 | the number before the leftmost "mm", 0 without one |
| PyRegex.LeadingNumber | product_bom.py:230 | `re.match(r'^\s*(\d+(?:\.\d+)?)')` finds nothing exactly when no digit follows the leading whitespace, and otherwise reads that digit run |
| PyRegex.SearchBetween | product_bom.py:449 | the lazy `to\s+(.+?)\s+Drive` search finds nothing exactly when no position matches |
| PyRegex.Strip | product_bom.py:1499 | `strip()` leaves no whitespace at either end and never lengthens the text |
| PyRegex.IntOfFirstNumber | product_bom.py:65 | `int(re.search(r"\d+\.?\d*", s).group())` raises `AttributeError` exactly when the text has no digit, `ValueError` exactly when the number found is followed by a point, and otherwise reads the leftmost number |
| PyRegex.IntOfFirstNumberWritten | product_bom.py:65 | a whole number written after text without digits, and not followed by a point, is read back |
| PyRegex.IntOfFirstNumberPoint | product_bom.py:65 | a number followed by a point, such as "600.5mm", makes `int` raise `ValueError` |
| RangeTable.Resolve | product_product.py:2308-2322 | the loop returns exactly what the scan specification `Select` gives for the table and diameter |
| RangeTable.SelectNarrowest | product_product.py:2312-2317 | when the `(0, 2500)` rule cannot fire, the result is `None` iff no range contains the diameter, and otherwise the value of the first of the narrowest containing ranges |
| RangeTable.SelectWide | product_product.py:2318-2321 | from 2500 up, with a `(0, 2500)` key present, the result is never `None`: it is that key's value unless a later, narrower range contains the diameter |
| RangeTable.NarrowestExists | product_product.py:2312-2317 | a stretch of the table either has no range containing the diameter or has a first narrowest one |
| RangeTable.ScanOn | product_product.py:2312-2317 | scanning on keeps the range already held unless a strictly narrower containing range comes later; ties keep the earlier range |
| RangeTable.ScanOnNone | product_product.py:2312-2317 | entries that do not contain the diameter leave the held range unchanged |
| RangeTable.TilesBounds | bom_automation_v2.py:1850-1859 | ranges that tile `[lo, hi)` stay inside it and do not overlap |
| RangeTable.TilesContain | bom_automation_v2.py:1850-1859 | every diameter in `[lo, hi)` lies in one of the tiling ranges |
| RangeTable.SelectTiled | bom_automation_v2.py:1850-1859 | on a tiling table the resolver answers exactly for diameters in `[lo, hi)`, with the value of the one range that contains it |
| RangeTable.SelectAround | product_product.py:2308-2322 | on a table tiling two stretches with a gap, the resolver answers exactly outside the gap |
| Bom.KeepNamed | product_bom.py:104 | `[r for r in lst if r[0]]` keeps exactly the lines of the list with a name |
| Bom.KeepCounted | bom_automation_v2.py:977 | `[c for c in lst if c[0] and c[1]]` keeps exactly the lines with a name and a non-zero quantity |
| Bom.KeepAppend | product_bom.py:1840 | filtering a concatenation is the concatenation of the filtered parts, so order is kept |
| Bom.KeepIdempotent | product_bom.py:1840 | filtering twice is filtering once |
| Bom.KeepAllPass | product_bom.py:1840 | a list whose lines all pass is returned unchanged |
| Bom.PlaceholderDropped | product_product.py:1470 | the `(None, 0)` placeholder never survives either filter |
| Bom.CountedWithinNamed | product_bom.py:104 | the name filter after the counted filter, or the counted filter after the name filter, is the counted filter |
| Bom.KeepNamedThenCounted | bom_automation_v1.py:892 | keeping named lines and then counted lines is keeping counted lines |
| Bom.KeepComponents | product_product.py:1470 | the bored-pile filter raises `TypeError` iff some element is a bare non-zero number; otherwise it keeps exactly the elements that pass, drawn from the input |
| Bom.KeepComponentsOfPairs | product_product.py:1470 | on a list made only of pairs it never raises and keeps the counted pairs in order |
| Bom.KeepComponentsIdempotent | product_product.py:1592 | filtering the filtered list again changes nothing |
| Bom.KeepComponentsAllPass | product_product.py:1592 | a list of counted pairs passes unchanged |
| Bom.CountedSurvives | product_product.py:1470 | a counted candidate line is among the kept pairs |
| Bom.SurvivorsCounted | product_product.py:1470 | every kept pair has a name and a non-zero quantity |
| Bom.Opt | product_product.py:1686-1688 | `(name, qty) if name else None` is present iff the name is non-empty, and is then that named line |
| Bom.Present | product_product.py:1707 | dropping `None` keeps exactly the present pairs, whatever their quantity |
| Bom.PresentAppend | product_product.py:1841 | dropping `None` from a concatenation drops it from each part, in order |
| AugerParts.BasePlate | product_product.py:470-489 | no plate iff the head is one of the seven excluded heads; a mapped head gets the plate of its own size (100, 110, 130 or 150; "Drive Head - 130mm Square" the 130mm plate); any other head the 200mm plate; always one of it |
| AugerParts.BasePlateNameInjective | product_product.py:470-489 | the plate size can be read back from the plate's name |
| AugerParts.TubeGusset | product_product.py:491-664 | a gusset iff the head belongs to one of the four groups and the tube is in that group's table; it then has quantity 1 and that entry's name |
| AugerParts.ZedCentre | product_product.py:666-682 | "" iff the tube is not in the table; otherwise one of the four ZED centres |
| AugerParts.ZedCentresNamed | product_product.py:666-682 | every tube of the table maps to one of the four named ZED centres |
| AugerParts.TubeMetres | product_product.py:709-713 | the metres figure is rounded to hundredths and within 0.005 of the exact length |
| AugerParts.ZedCentreTube | product_product.py:684-715 | fails iff the head is unlisted (`TypeError`) or listed without a base-plate height (`IndexError`); otherwise the tube, its length being the overall length less head, plate and ZED centre, or 0 without a ZED centre |
| AugerParts.ZedCentreTubeHeads | product_product.py:684-708 | exactly the nine heads listed with a base-plate height give a ZED centre tube |
| AugerParts.CentreTubeFor | product_product.py:717-747 | the tube's length is the overall length less the head allowance and the pilot offset, 0 for an unlisted head |
| AugerParts.CentreTube | product_product.py:717-731 | as written the tube keeps its name and its length is the overall length less the head allowance alone, whatever the pilot support; 0 for an unlisted head |
| AugerParts.PilotOffset | product_product.py:722-729 | the pilot offset is never negative |
| AugerParts.CentreTubeIgnoresPilot | product_product.py:718 | as written the pilot support never changes the centre tube, because the key is its first character |
| AugerParts.CentreTubeIntended | product_product.py:717-747 | with the offset looked up by the pilot support's name, a listed head's tube is shortened by that offset |
| AugerParts.PilotShortensCentreTube | product_product.py:717-747 | under the intended lookup a pilot support can only shorten the tube |
| AugerParts.CentreTubeHexPilotExample | product_product.py:718-731 | a 6000mm tube under a 75mm head with a hex pilot support is 5.85m as written, 5.78m as intended |
| AugerParts.FlightBraceComponents | product_product.py:749-771 | no table iff the head is excluded; otherwise the brace table with one brace when both carrier attributes are set and two otherwise |
| AugerParts.SelectBrace | product_product.py:749-771 | the resolver picks the single brace bucket holding the diameter, none outside `[0, 5000)` |
| AugerParts.FlightBraceBuckets | product_product.py:749-771 | the brace is the diameter's bucket, none below 750mm, from 5000mm or for excluded heads |
| AugerTeeth.PilotSupportOd | product_product.py:984-993 | 0 iff the support is not in the table; otherwise 78, 150 or 200 |
| AugerTeeth.OddTeethQty | product_product.py:995-1002 | the count is odd and within -0.5..1.5 of the raw count |
| AugerTeeth.OddTeethQtyIsLeast | product_product.py:995-1002 | the count is the least odd number not below the rounded raw count |
| AugerTeeth.EvenTeethQty | product_product.py:1096-1099 | the count is even and within 1 of the raw count |
| AugerTeeth.TriadTeethQty | product_product.py:1166-1169 | the count is the raw count rounded, within 0.5, with no parity rule |
| AugerTeeth.RoundToNearestEven | product_product.py:2807-2816 | the result is even and at most 1 from the input |
| AugerTeeth.RoundToNearestEvenIsNearest | product_product.py:2807-2816 | no even number is nearer to the input than the result |
| AugerTeeth.KitPartsOf | product_product.py:1004-1094 | the pilot parts of a kit table are empty iff the pilot is not in the table |
| AugerTeeth.DualTaperTeeth | product_product.py:1004-1094 | for a listed tooth type its tooth with the odd `DualTaperQty` count for the diameter, pilot and spacing, its holder four fewer, then the pilot's parts; otherwise only the pilot's parts |
| AugerTeeth.ZedTeeth | product_product.py:1101-1164 | for a listed tooth type an even number of teeth, as many holders and half as many BA13 buttons; always exactly one last stiffener line of quantity 2, "(Under 600mm)" iff the diameter is below 600 |
| AugerTeeth.TriadTeeth | product_product.py:1171-1211 | only the 22mm BC86 tooth gives teeth: the rounded triad count and four fewer holders, then the pilot's parts |
| AugerTeeth.ClayHead | product_product.py:1213-1358 | the teeth and holder lines are empty iff the diameter and tooth have no branch, and two lines otherwise |
| AugerTeeth.ClayShaleTeeth | product_product.py:1213-1358 | as written: no lines off the listed branches; on the stepped branch the pairs in order; on the AR150 branches with a third tooth the last element is the bare count 4 |
| AugerTeeth.ClayShaleTeethLines | product_product.py:1213-1358 | as intended: no lines iff unlisted; even counts with equal holders on the stepped and formula branches, the fixed count on the fixed branch; the pilot's parts follow, and a third tooth of 4 ends the list iff the pilot has one |
| AugerTeeth.ClayThirdCounted | product_product.py:1290-1297 | every third tooth of the table is a named line of quantity 4 |
| AugerTeeth.ClayShaleAgreeWithoutThirdTooth | product_product.py:1352-1358 | without a third tooth the written and intended lists agree |
| AugerTeeth.ClayShaleThirdToothIsBare | product_product.py:1355-1356 | with a third tooth the written list holds a bare non-zero number, so the builder's filter raises |
| AugerTeeth.BladeItems | product_product.py:1416-1421 | the blade parts are always five list elements, `None` included |
| AugerTeeth.BladeTeeth | product_product.py:1360-1421 | two teeth and two holders iff the diameter is listed; pilot and support iff the pilot is listed; an end cap only for the hex pilot |
| AugerTeeth.PilotSupport | product_product.py:1423-1433 | fails with `TypeError` iff a bare non-zero number comes before any support; otherwise the name of the first pair naming a pilot support, `None` iff there is none |
| AugerFlights.CarrierFlightQty | product_product.py:801-827 | 0 without dividing when pitch times turns is 0, and 0 for an unlisted type; otherwise a multiple of 0.5 not below the raw count and less than 0.5 above it |
| AugerFlights.CarrierFlightQtyIsLeast | product_product.py:801-827 | no multiple of 0.5 lies between the raw count and the result |
| AugerFlights.CarrierQtyOfNames | product_product.py:773-799 | fails with `IndexError` iff the flighted length holds no number; 0 when both names are empty; otherwise the carrier formula on the pitches and turns read from the names |
| AugerFlights.ParseFlight | product_product.py:863-910 | turns are kept only when above 1 |
| AugerFlights.FlightId | product_product.py:829-847 | the smallest catalogue flight ID within 5mm above the bore, `None` iff there is none |
| AugerFlights.FlightIdFrom | product_product.py:839-847 | the smallest catalogue ID from `base + t` to `base + 5`, `None` iff there is none |
| AugerFlights.NameReadBack | product_product.py:780-799 | a flight name's pitch and turns are read back by the pitch regexes |
| AugerFlights.FlightNameReadBack | product_product.py:849-910 | reading the pitch and turns back out of a built flight name gives those of the attribute it was built from, turns 1 when left out |
| AugerFlights.FlightName | product_product.py:849-910 | no name exactly when neither the pitch nor the OD attribute is set; otherwise a name starting "Flight - " |
| AugerFlights.LeadQty | product_product.py:942-945 | 3 iff Triad Rock over 650mm, 1 iff Triad Rock up to 650mm, 2 iff any other type |
| AugerFlights.MissingFlightBothExample | product_product.py:929-934 | with both flights missing the message as written names only the carrier flight |
| AugerFlights.MissingFlightIntended | product_product.py:929-934 | the intended message names both flights, the lead flight or the carrier flight, and is empty iff both exist |
| AugerFlights.MissingFlightAgree | product_product.py:929-934 | the messages agree unless both flights are missing |
| AugerFlights.LeadOrCarrierFlight | product_product.py:912-952 | as written a missing lead flight always raises, a missing carrier raises only without an override; with the lead present and the carrier present or overridden it succeeds exactly when the carrier quantity can be computed, and raises that quantity's error otherwise; a result holds the lead line with its quantity and the carrier line with the carrier quantity, `(None, 0)` for a missing carrier |
| AugerFlights.LeadOrCarrierFlightIntended | product_product.py:912-952 | as intended an overridden BOM never raises on a missing flight, and a missing flight becomes `(None, 0)` |
| AugerFlights.LeadOrCarrierFlightAgree | product_product.py:912-952 | with both flights in the catalogue the two rules agree |
| AugerFlights.OverrideStillRaises | product_product.py:936-937 | an overridden BOM without its lead flight raises as written and not as intended |
| AugerFlights.StockLeadCarrierFlight | product_product.py:954-966 | two lines: the lead with its lead quantity and the carrier with its quantity, each `(None, 0)` when its name is empty |
| AugerFlights.FirstNamed | product_product.py:968-982 | the first named line of the list, or the placeholder when none is named |
| AugerFlights.NonOrStockFlights | product_product.py:968-982 | the first named non-stocked line and the first named stocked line |
| BarrelFrontEnd.FrontEndOf | product_product.py:1709-1716 | each of the four front-end texts, and only it, selects its front end |
| BarrelFrontEnd.TeethOf | product_product.py:2063-2090 | each of the five tooth texts, and only it, selects its tooth |
| BarrelFrontEnd.EvenUp | product_product.py:2065 | the result is even and is the count or one more |
| BarrelFrontEnd.OddDown | product_product.py:2112 | the result is odd and is the count or one less |
| BarrelFrontEnd.RockPilot | product_product.py:2117-2118 | a pilot and a pilot support, one of each |
| BarrelFrontEnd.BarrelStiffener | product_product.py:2070-2073 | two flight stiffeners |
| BarrelFrontEnd.BlockSpacing | product_product.py:2064-2091 | the tooth spacing is positive |
| BarrelFrontEnd.ZedQty | product_product.py:2064-2065 | the ZED count is even and is the rounded raw count or one more |
| BarrelFrontEnd.ZedQtyIsLeast | product_product.py:2064-2065 | no even number at or above the rounded raw count is below the ZED count |
| BarrelFrontEnd.ZedFrontEnd | product_product.py:2061-2107 | no lines exactly for a non-shank tooth; otherwise an even number of teeth, as many holders, the teeth brace for all but the 22mm tooth, and the stiffener last |
| BarrelFrontEnd.TaperQty | product_product.py:2111-2112 | the Taper Rock count is odd and is the rounded raw count or one less |
| BarrelFrontEnd.TaperQtyIsGreatest | product_product.py:2111-2112 | no odd number at or below the rounded raw count exceeds the Taper Rock count |
| BarrelFrontEnd.TaperFrontEnd | product_product.py:2109-2141 | no lines exactly for a non-shank tooth; otherwise an odd number of teeth, four fewer holders, the pilot and its support |
| BarrelFrontEnd.DualQty | product_product.py:2147-2148 | a dual-blade count is odd |
| BarrelFrontEnd.DualDoublesSingle | product_product.py:2147-2150 | a dual blade carries one more or one fewer than twice the single blade's count |
| BarrelFrontEnd.ClayQty | product_product.py:2146-2150 | a dual-blade clay count is odd |
| BarrelFrontEnd.ClayFrontEnd | product_product.py:2143-2172 | no lines exactly for a tooth other than BFZ162 and FZ54; otherwise flat teeth, four shank teeth, a holder per flat tooth, the pilot and its support, the count odd on a dual blade |
| BarrelFrontEnd.RoundSpacing | product_product.py:2179-2211 | the tooth spacing is positive |
| BarrelFrontEnd.RockQty | product_product.py:2178-2182 | a dual-blade Rock count is odd |
| BarrelFrontEnd.RockFrontEnd | product_product.py:2174-2221 | no lines exactly for a non-shank tooth; otherwise the teeth, four fewer round holders, the pilot and its support, the count odd on a dual blade |
| BarrelFrontEnd.RockDualDoublesSingle | product_product.py:2174-2221 | a dual blade's round holders are one more or one fewer than twice a single blade's |
| BarrelParts.HeadOf | product_product.py:2685-2707 | a listed head exactly when the text is that head's; otherwise no listed head has that text |
| BarrelParts.TypeOf | product_product.py:2818-2873 | each type text, and only it, selects its barrel type |
| BarrelParts.DrivePart | product_product.py:2685-2707 | a drive-head part exactly for the square and Lo Drill heads |
| BarrelParts.EarsLine | product_product.py:1647-1649 | ears exactly for the two 130mm heads: two plain ears, four DIGGA ears |
| BarrelParts.GussetDrive | product_product.py:1853-1875 | never empty; the 75, 100, 110mm and unlisted heads name the head's number and "mm Drive" |
| BarrelParts.GussetName | product_product.py:1645 | the gusset name starts with "Gusset " |
| BarrelParts.ProfGroupOf | product_product.py:2818-2873 | an unlisted head or type matches no group |
| BarrelParts.ProfGroupName | product_product.py:2818-2873 | every group has a non-empty text |
| BarrelParts.ProfCombination | product_product.py:2818-2873 | empty for an unlisted head or type |
| BarrelParts.ProfCombinationListed | product_product.py:2818-2873 | the text is empty if and only if the head or the type is unlisted |
| BarrelParts.ProfCombinationGrade | product_product.py:2818-2873 | a square head's group is its head rank plus its type rank |
| BarrelParts.BucketPivotKitCovers | product_product.py:2709-2775 | the bucket kit is one of the five sizes; there is one exactly for a listed type with a square head, or the custom head on a Lightweight bucket below 1300mm |
| BarrelParts.BucketPivotKit | product_product.py:2709-2775 | no bucket pivot kit exactly unless the type is listed and the head square, or the head is custom on a Lightweight bucket below 1300mm |
| BarrelParts.BucketPivotKitGrows | product_product.py:2709-2775 | a wider bucket never gets a smaller kit |
| BarrelParts.DrillPivotKitCovers | product_product.py:2248-2279 | the drilling kit is 90, 120 or 160; there is one exactly for a listed type and head, except light heads at diameter 0 |
| BarrelParts.DrillPivotKit | product_product.py:2248-2279 | no drilling pivot kit exactly unless the type and head are listed, light heads at diameter 0 having none |
| BarrelParts.DrillPivotKitGrows | product_product.py:2248-2279 | a wider barrel never gets a smaller kit |
| BarrelParts.DrillKitHeadOd | product_product.py:2051-2059 | the kit the drilling barrel chose reads back as head OD 150, 200 or 270 by size, 0 without a kit |
| BarrelParts.HollowBarCovers | product_product.py:1877-1907 | a hollow bar exactly for a listed type with a square head (not a light head at diameter 0); the 200mm OD bar only on a Taper Rock front end |
| BarrelParts.ZedCentre | product_product.py:2039-2049 | a ZED centre only on a ZED front end and one of the three ZED bars |
| BarrelParts.ZedCentreOfZedFrontEnd | product_product.py:2039-2049 | on a ZED front end a barrel has a ZED centre exactly when it has a hollow bar |
| BarrelParts.PlungerBarsAgree | product_product.py:2649-2675 | the two plunger-bar rules differ exactly for a custom head below 900mm; the 750mm bar goes with a heavy head from 900mm; which barrels get none |
| BarrelParts.HingeHandleBarQty | product_product.py:2401-2415 | the barrel height in metres plus an allowance of 0.5 to 0.67 |
| BarrelParts.HandleBarQty | product_product.py:2777-2791 | a positive length |
| BarrelParts.HandleBarsDiffer | product_product.py:2777-2791 | the hinged handle bar is always 0.4m longer than the plain one |
| BarrelParts.Pcf1 | product_product.py:2223-2228 | a positive channel length exactly from 2000mm |
| BarrelParts.Pcf2 | product_product.py:2623-2630 | a channel exactly from 2000mm, the diameter less 240mm in metres |
| BarrelParts.ArrowHead | product_product.py:1672-1678 | every diameter has an arrow head |
| BarrelParts.WearPads | product_product.py:1660-1661 | an even number of wear pads within one of the raw count |
| BarrelParts.BucketHingesTile | product_product.py:2632-2647 | the bucket hinge ranges tile 0..5000mm with no gap |
| BarrelParts.DrillHingesTile | product_product.py:2230-2246 | the drilling hinge ranges tile 0..5000mm with no gap |
| BarrelParts.BucketPlungerHingesTile | product_product.py:2424-2435 | the bucket plunger hinge ranges tile 0..5000mm |
| BarrelParts.DrillPlungerHingesTile | product_product.py:1743-1755 | the drilling plunger hinge ranges tile 0..5000mm |
| BarrelParts.BucketPlungerHingeBarsTile | product_product.py:2510-2522 | the bucket plunger pin-bar ranges tile 0..5000mm |
| BarrelParts.DrillPlungerHingeBarsTile | product_product.py:1909-1922 | the drilling plunger pin-bar ranges tile 0..5000mm |
| BarrelParts.BucketHingeBarsTile | product_product.py:2793-2805 | the bucket pin-bar ranges tile 0..5000mm except 350..500mm |
| BarrelParts.DrillHingeBarsTile | product_product.py:1924-1937 | the drilling pin-bar ranges tile 0..5000mm except 350..500mm |
| BarrelParts.HingeTablesResolve | product_product.py:2308-2322 | each hinge table finds a range exactly for diameters below 5000mm |
| BarrelParts.HingeBarGap | product_product.py:1924-1937 | handle barrels get a pin bar exactly below 350mm or from 500 to 5000mm |
| Barrel.Read | product_product.py:1626-1634 | raises `IndexError` exactly when the diameter has no digits; otherwise the diameter read is its first number |
| Barrel.PinBar | product_product.py:1652-1657 | a pin-bar line exactly when the table gives one that names a part, unchanged |
| Barrel.LeadingKept | product_product.py:1685-1707 | the profiling and gusset lines survive the filter and lead the list |
| Barrel.LeadingListed | product_product.py:1685-1707 | every bill lists the drive-head part of a square head, the ears of a 130mm head, the pivot kit when one applies, and from 2000mm both flange channels |
| Barrel.DrillHandle | product_product.py:1625-1718 | raises exactly when the diameter has no digits; otherwise the filtered list of profiling, gussets, drive head, ears, pivot kit, hinge, bushes, pin bar, handle bar, lock washers, arrow head, wear pads, flange channels, hollow bar and ZED centre, in that order, then the front-end teeth |
| Barrel.DrillHandleLeads | product_product.py:1685-1707 | the list opens with the profiling line and four gussets and holds the wear pads and the arrow head |
| Barrel.WithTeeth | product_product.py:1709-1716 | appended teeth end the list and its own lines keep their places |
| Barrel.DrillPlunger | product_product.py:1736-1851 | raises exactly when the diameter has no digits; otherwise the filtered list of profiling, gussets, drive head, ears, pivot kit, plunger hinge, bushes, pin bar, plunger bar, bush, spring, end cap, bolts, nuts, wear pads, flange channels, hollow bar and ZED centre, in that order, then the front-end teeth |
| Barrel.DrillPlungerLeads | product_product.py:1736-1851 | profiling and gussets lead; the wear pads, plunger bushes, bolts and nuts are listed in their counts |
| Barrel.DrillPlungerHandle | product_product.py:1939-2037 | raises exactly when the diameter has no digits; otherwise the filtered list of profiling, gussets, drive head, ears, pivot kit, hinge, bushes, pin bar, handle bar, lock washers, arrow head, plunger bar, bush, spring, end cap, wear pads, flange channels, hollow bar and ZED centre, in that order, then the front-end teeth |
| Barrel.DrillPlungerHandleLeads | product_product.py:1939-2037 | the profiling text ends in a space; gussets, wear pads, arrow head and a single bush are listed |
| Barrel.BucketHandle | product_product.py:2324-2399 | raises `IndexError` without diameter digits; otherwise the filtered list of profiling, gussets, drive head, ears, pivot kit, hinge, bushes, pin bar, handle bar, lock washers, arrow head, wear pads and flange channels, in that order |
| Barrel.BucketHandleIntended | product_product.py:2324-2399 | the same bucket with its hinge parts unset beforehand: never `UnboundLocalError` |
| Barrel.BucketHandleUnbound | product_product.py:2374-2375 | the two agree below 5000mm; from 5000mm the source raises `UnboundLocalError` where the intended reading lists the bucket |
| Barrel.BucketPlunger | product_product.py:2417-2508 | raises without diameter digits; otherwise the filtered list of profiling, gussets, drive head, ears, pivot kit, plunger hinge, bushes, pin bar, plunger bar, bush, spring, end cap, bolts, nuts, wear pads and flange channels, in that order |
| Barrel.BucketPlungerHandle | product_product.py:2524-2611 | raises without diameter digits; otherwise the filtered list of profiling, gussets, drive head, ears, pivot kit, hinge, bushes, pin bar, handle bar, lock washers, arrow head, plunger bar, bush, spring, end cap, wear pads and flange channels, in that order |
| Barrel.DrillingBarrel | product_product.py:1602-1623 | each of the three opening types selects its builder; any other opening lists nothing |
| Barrel.CleaningBucket | product_product.py:2287-2306 | each of the three opening types selects its builder; any other opening lists nothing |
| CoreBarrel.Collapse | product_product.py:3419 | no longer than the input, and no whitespace other than single spaces is left |
| CoreBarrel.FoldAll | product_product.py:3419 | the same length, each character lower-cased and spaces and slashes turned to underscores |
| CoreBarrel.FoldKey | product_product.py:3419 | folding text whose only whitespace is spaces yields a key (no whitespace, no capitals, no slash) |
| CoreBarrel.KeyUnchanged | product_product.py:3419 | collapsing and stripping leave a key unchanged |
| CoreBarrel.FoldKeyUnchanged | product_product.py:3419 | folding leaves a key unchanged |
| CoreBarrel.NormalizeIdempotent | product_product.py:3417-3419 | normalising yields a key, and normalising again changes nothing |
| CoreBarrel.TidyNormalize | product_product.py:3417-3419 | an attribute with single inner spaces normalises character by character |
| CoreBarrel.NormalizeExample | product_product.py:3382 | "22mm Teeth" is looked up as the `22mm_teeth` column |
| CoreBarrel.ClosestUnique | product_product.py:3390-3407 | at most one diameter of the table is the closest |
| CoreBarrel.ClosestOfListed | product_product.py:3391-3392 | a listed diameter is its own closest |
| CoreBarrel.ClosestExists | product_product.py:3394-3405 | every non-empty table has a closest diameter for any diameter |
| CoreBarrel.SortedKeys | product_product.py:3396 | the table's diameters, all of them and only them, in increasing order |
| CoreBarrel.TeethForDiameter | product_product.py:3390-3407 | an empty table raises `IndexError`; otherwise the count in the row of the closest diameter (the diameter itself, else the largest smaller one, else the smallest), 0 for a missing column |
| CoreBarrel.NumberOfTeeth | product_product.py:3409-3415 | the table's count for the diameter's first number and the normalised teeth type; 0 without a number |
| CoreBarrel.DrivePart | product_product.py:2994-3016 | agrees with the drilling barrel's drive-head part for every head but the Lo Drill one |
| CoreBarrel.CombinationAgrees | product_product.py:3018-3054 | the core barrel's profiling groups equal the barrels' for square heads; the Lo Drill and custom heads get none |
| CoreBarrel.NoGrade | product_product.py:3018-3054 | the Lo Drill and custom heads have no grade |
| CoreBarrel.GradeAgrees | product_product.py:3018-3054 | a square head's core grade is the barrels' duty group, and one exists exactly when the other does |
| CoreBarrel.DefaultTeeth | product_product.py:3352-3366 | "unknown" exactly for a size outside the five listed |
| CoreBarrel.TeethAttrKnown | product_product.py:3056-3067 | the seven listed teeth attributes get a known tooth and holder; every other gets "unknown" |
| CoreBarrel.HeadMm | product_product.py:3368-3372 | a match is digits ending in "mm" |
| CoreBarrel.HeadMmWritten | product_product.py:3368-3372 | a head attribute that starts with its size in millimetres reads back that size |
| CoreBarrel.GussetLine | product_product.py:3079-3080 | four gussets |
| CoreBarrel.ProdQty | product_product.py:2993 | at least one, and the table's count when that is positive |
| CoreBarrel.TeethLines | product_product.py:3090-3097 | apart from the CJ2/WS20 combination, a tooth line and a holder line, each in the fitted count |
| CoreBarrel.IndexOf | product_product.py:3078 | `None` exactly when the line is absent; otherwise its first position |
| CoreBarrel.Insert | product_product.py:3080 | one longer, the line at the position, the rest shifted |
| CoreBarrel.LeadComponents | product_product.py:3071-3083 | profiling, gusset, drive head, wear strip, miniflight bar, with the insertion point after the drive head |
| CoreBarrel.InsertEach | product_product.py:3086-3097 | inserting each line, last first, after the drive head puts them all there in order |
| CoreBarrel.Components | product_product.py:2961-3100 | raises exactly when the teeth count does; otherwise profiling, gusset, drive head, the teeth and holders, the 130mm ears, then wear strip and miniflight bar |
| StockCasing.WallValue | product_product.py:231-233 | a wall read from the attribute is never negative |
| StockCasing.CasingOd | product_product.py:229-235 | the outside diameter is the inside diameter plus twice the wall, truncated to whole millimetres |
| StockCasing.PermanentCasingWhole | product_product.py:218-235 | a whole wall `w` on inside diameter `d` names the casing `OD{d + 2w} WT{w}` |
| StockCasing.PermanentCasingExample | product_product.py:218-235 | a 1200mm casing with a 12mm wall is `OD1224 WT12` |
| StockCasing.DbandShoeQty | product_product.py:259-281 | 0.0 without a size; otherwise hundredths within half a hundredth of the aligned girth in metres |
| StockCasing.OverlapLongest | product_product.py:270-281 | an overlapped bar is never shorter than an OD-aligned one, nor, on a non-negative wall, an ID-aligned one |
| StockCasing.FlatBar | product_product.py:284-289 | a flat-bar name exactly when width and thickness were read and are non-zero, and it starts "Flat Bar - " |
| StockCasing.FlatBarInjective | product_product.py:284-289 | two flat bars share a name only when they share width and thickness |
| StockCasing.SizesInjective | product_product.py:288 | width and thickness are read back from the bar's size text |
| StockCasing.Given | product_product.py:302 | no longer than the parts; holds exactly the parts that are present and non-empty |
| StockCasing.Profiling | product_product.py:303 | one profiling line |
| StockCasing.LayoutOf | product_product.py:299-394 | each profiled combination of band and shoe selects its layout, both directions; the shared-size layout only when band and shoe have the same size |
| StockCasing.CasingComponent | product_product.py:248-418 | raises `AttributeError` without an inside diameter or wall number and `ValueError` on a decimal teeth count; otherwise the casing first, the layout's lines, and the teeth last when chosen |
| StockCasing.BandAndShoe | product_product.py:299-418 | the lines after the casing are the ones the layout calls for |
| StockCasing.PileCasingComponents | product_product.py:192-246 | a casing missing from the catalogue raises the validation error; otherwise fails exactly as the casing component does, and the list is led by the casing |
| BoredPile.StiffeningRing | product_product.py:1441-1450 | a stiffening ring exactly for the 75mm head on the OD150 hollow bar, one of it; otherwise the unnamed placeholder |
| BoredPile.SupportOf | product_product.py:1423-1433 | searching a list of plain pairs for the pilot support never raises |
| BoredPile.DualTaperRock | product_product.py:1435-1471 | raises `IndexError` without a diameter number and the flights' error when they are unavailable; otherwise the counted candidate lines, every one a counted pair |
| BoredPile.TriadRock | product_product.py:1473-1493 | the same failure cases; otherwise the counted Triad lines, every one a counted pair |
| BoredPile.ZedAuger | product_product.py:1495-1535 | besides the diameter and flights, fails exactly as the ZED centre tube does; a built list holds the teeth brace and the flight stiffener |
| BoredPile.ZedLinesHold | product_product.py:1495-1535 | the teeth brace and the flight stiffener survive the filter |
| BoredPile.ZedAugerHeads | product_product.py:1495-1535 | with a readable diameter and available flights, exactly the nine heads with a base-plate height build a ZED auger |
| BoredPile.ClayShaleAuger | product_product.py:1537-1570 | besides the diameter and flights, raises `TypeError` exactly for the third-tooth case; a built list passes the filter |
| BoredPile.ClayShaleAugerIntended | product_product.py:1537-1570 | fails only on the diameter or the flights; on the third-tooth case the third tooth is listed |
| BoredPile.ClayThirdSurvives | product_product.py:1549-1568 | the intended list keeps the third tooth |
| BoredPile.ClayShaleAgree | product_product.py:1537-1570 | outside the third-tooth case the written builder gives the intended list |
| BoredPile.BladeFilter | product_product.py:1592 | the blade parts never make the filter raise, and counted teeth and supports survive it |
| BoredPile.BladeSupportFound | product_product.py:1423-1433 | the pilot-support search never raises on the blade parts |
| BoredPile.BladeAuger | product_product.py:1572-1593 | fails only on the diameter or the flights; a built list is counted pairs holding the counted blade teeth and support |
| BoredPile.KindOf | product_product.py:457-467 | Taper Rock and Dual Rock select the dual/taper builder, Triad Rock the Triad builder, the four ZED types the ZED builder, Clay/Shale its builder, and every other type the blade builder |
| BoredPile.BoredPileFiltered | product_product.py:433-468 | every bored-pile list holds only named, counted pairs, no placeholder, and filtering again changes nothing |
| BoredPile.BoredPileComponents | product_product.py:433-468 | the list is the one the builder selected for the auger type builds (`BoredPile.KindOf`), so every unnamed type gets a blade auger |
| Tremie.C3Qty | product_product.py:2944-2959 | the section less 0.10 to 0.20m for a listed diameter, 0 for any other |
| Tremie.LeadCut | product_product.py:2925-2929 | the section less 0.10 to 0.16m |
| Tremie.Read | product_product.py:2899-2900 | `IndexError` exactly when the length or the diameter has no digits; otherwise the first numbers of both |
| Tremie.Intermediate | product_product.py:2898-2910 | fails exactly as the reading does; otherwise female and male couplings named after the diameter, then the pipe cut to the intermediate length |
| Tremie.LeadSection | product_product.py:2912-2942 | fails exactly as the reading does; the 4" section takes the 4" coupling, plug holder and pipe 0.10 short; any other takes its female coupling and the lead cut |
| Tremie.Components | product_product.py:2882-2896 | no components for an unknown type; three lines ending in the pipe for an intermediate section, two or three for a lead section |
| Tremie.ReadWritten | product_product.py:2899-2900 | a length and a diameter written as numbers read back as those numbers |
| Tremie.IntermediateWritten | product_product.py:2898-2910 | an intermediate section written as numbers yields its couplings and the pipe cut to its length |
| Tremie.FourInchReads | product_product.py:2931 | the diameter `4" Diameter` reads as 4 |
| Tremie.SixInchSameCut | product_product.py:2926-2927 | a 6" pipe is cut 0.10m short in both kinds of section |
| Tremie.FourInchLeadLonger | product_product.py:2918-2935 | the 4" lead section keeps 0.03m more pipe than a 4" intermediate section |
| AugerPartsV2.DriveHeadEars | bom_automation_v2.py:281-288 | ears exactly for the two 130mm heads: two plain ears, four DIGGA ears; otherwise the placeholder |
| AugerPartsV2.GussetTable | bom_automation_v2.py:311-429 | every gusset the tables name is non-empty |
| AugerPartsV2.TubeGusset | bom_automation_v2.py:311-429 | one gusset exactly when the head has a group and the tube is in its table, and it is that table's entry |
| AugerPartsV2.PilotHeight | bom_automation_v2.py:484-489 | never negative, and 0 for anything but a support name |
| AugerPartsV2.CentreTube | bom_automation_v2.py:480-506 | the tube named as chosen; 0 for an unknown head; otherwise the overall length less the head and the pilot height, in millimetres |
| AugerPartsV2.CentreTubeIgnoresPair | bom_automation_v2.py:484-491 | a pilot-support pair used as a key never shortens the tube |
| AugerPartsV2.CentreTubeIntended | bom_automation_v2.py:480-506 | looked up by the support's name, the tube is shortened by that support's offset |
| AugerPartsV2.CentreTubeHexExample | bom_automation_v2.py:485-493 | with the hex support under a 75mm head the written tube is the length less 150, the intended one less 225 |
| AugerPartsV2.CentreTubeInMillimetres | bom_automation_v2.py:490-505 | apart from the Bauer head, the same heads are listed and the tube is the product_product.py tube before conversion to metres |
| AugerPartsV2.ZedHeadHeight | bom_automation_v2.py:449-478 | 0 for an unknown head, else the head's own height |
| AugerPartsV2.ZedCentreTube | bom_automation_v2.py:449-478 | the tube named as chosen; 0 without a ZED centre; otherwise the length less the head and the centre height, between 133.5 and 188 short |
| AugerPartsV2.FlightBraceComponents | bom_automation_v2.py:508-530 | no table exactly for excluded heads; otherwise one brace with a carrier flight, two without |
| AugerPartsV2.FlightBrace | bom_automation_v2.py:508-530 | the placeholder for an excluded head, otherwise the bucket resolved for the diameter |
| AugerPartsV2.CarrierFlightQty | bom_automation_v2.py:565-581 | raises `ZeroDivisionError` exactly for a listed type with zero carrier pitch times turns; otherwise the product_product.py quantity |
| AugerPartsV2.PitchTurns | bom_automation_v2.py:539-546 | the same turns as product_product.py; the pitch defaults to 1 where that file's defaults to 0 |
| AugerPartsV2.FlightPair | bom_automation_v2.py:548-560 | no pair exactly when a lead or a carrier name is missing from both sources; the stocked pair first, then the non-stocked pair |
| AugerPartsV2.CarrierQty | bom_automation_v2.py:532-563 | `IndexError` without a flighted-length number; without a pair a listed type divides by zero and any other gets 0; otherwise the quantity of the pair's pitches |
| AugerPartsV2.ParseFlightValues | bom_automation_v2.py:673-691 | the `P` and `T` numbers (0 when absent) and the `R` turns when present |
| AugerPartsV2.TubeId | bom_automation_v2.py:606-613 | empty exactly when the tube has neither number; otherwise the dash number, else the OD number, all digits |
| AugerPartsV2.NonStockFields | bom_automation_v2.py:603-624 | seven fields, the third being the ID field |
| AugerPartsV2.NonStockName | bom_automation_v2.py:600-624 | empty exactly for an empty description; otherwise the seven fields joined by spaces with the " - Non-Stocked" suffix |
| AugerPartsV2.NonStockFlight | bom_automation_v2.py:587-624 | the same name with the tube's number as the ID field |
| AugerPartsV2.NonStockNamePitch | bom_automation_v2.py:619-624 | the name carries the pitch of the description it was built from |
| AugerPartsV2.NonStockNameThickness | bom_automation_v2.py:619-624 | the name carries the thickness of the description it was built from |
| AugerPartsV2.TubeIdFree | bom_automation_v2.py:606-613 | the ID field holds neither `P` nor `T` |
| AugerPartsV2.NonStockFlightReadBack | bom_automation_v2.py:587-624 | reading the built name back gives the description's pitch and thickness |
| AugerPartsV2.NonStockLeadCarrierFlight | bom_automation_v2.py:583-639 | two lines: the non-stocked lead with the lead quantity and the non-stocked carrier with the carrier quantity, each the placeholder when its description is empty |
| AugerPartsV2.MergedFlights | bom_automation_v2.py:655-671 | merging keeps the named lines of lead, lead, carrier, carrier in that order |
| AugerPartsV2.MergeFlights | bom_automation_v2.py:655-671 | the loop's result is the named lines of the pairwise interleaving |
| AugerTeethV2.DualTaperSpacing | bom_automation_v2.py:703-759 | every listed dual/taper tooth type has a positive spacing and a named tooth |
| AugerTeethV2.DualTaperTeeth | bom_automation_v2.py:703-759 | nothing exactly for an unlisted tooth type; otherwise an odd teeth count, four fewer holders and the three-part pilot kit |
| AugerTeethV2.FMod2Zero | bom_automation_v2.py:779 | a float's `% 2 == 0` holds exactly for even whole numbers |
| AugerTeethV2.ZedParity | bom_automation_v2.py:779-780 | an even whole count gains one and becomes odd; any other count is unchanged; the result is never an even whole number |
| AugerTeethV2.ZedSpacing | bom_automation_v2.py:773-824 | every listed ZED tooth type has a positive spacing |
| AugerTeethV2.ZedTeeth | bom_automation_v2.py:761-840 | nothing exactly for an unlisted tooth type; otherwise a count never an even whole number, as many holders, half as many carbide buttons, and the stiffener sized by 600mm |
| AugerTeethV2.ZedCountIntended | bom_automation_v2.py:767-771 | the intended ZED count is odd and within -0.5..1.5 of the raw count |
| AugerTeethV2.ZedFractionalExample | bom_automation_v2.py:773-785 | a 600mm auger on a 150mm tube with BC05 teeth gets 860/42 teeth, not a whole number, where 21 is intended |
| AugerTeethV2.TriadQty | bom_automation_v2.py:846-855 | the Triad count is odd, within -0.5..1.5 of the raw count, and is product_product.py's count or one more |
| AugerTeethV2.TriadTeeth | bom_automation_v2.py:842-863 | `None` exactly unless the teeth are BC86; then an odd count, four fewer holders and the 22mm hex pilot kit |
| AugerTeethV2.ClayShaleTeeth | bom_automation_v2.py:865-902 | nothing exactly for an unlisted diameter; otherwise the AR150 teeth, two holders and the hex fishtail pilot kit |
| AugerTeethV2.ProductClayFixed | product_product.py:1213-1358 | product_product.py's AR150 list with the hex fishtail pilot at a listed diameter |
| AugerTeethV2.ClayTablesAgree | bom_automation_v2.py:869-900 | the two diameter tables agree on every holder and on every count but the 600mm one (2 here, 12 there) |
| AugerTeethV2.ClayShaleAgainstProduct | bom_automation_v2.py:865-902 | the 300, 400 and 450mm lists equal product_product.py's; at 600mm only the teeth count differs |
| AugerTeethV2.BladeLines | bom_automation_v2.py:904-933 | nothing exactly for an unlisted diameter; otherwise teeth and holder two each, the pilot named by the attribute, the given support and no end cap |
| AugerTeethV2.BladeTeeth | bom_automation_v2.py:904-907 | the support is always a quarter of the OD101 pipe and the end cap always the placeholder |
| AugerTeethV2.BladeTeethIntended | bom_automation_v2.py:904-907 | the hex fishtail pilot sits on the hex support with its end cap; any other pilot gets the written list |
| AugerTeethV2.BladeHexPilotExample | bom_automation_v2.py:905-907 | a 300mm blade auger with the hex fishtail pilot gets the pipe support and no end cap, where the hex support is intended |
| BoredPileV2.FlightCandidates | bom_automation_v2.py:950-951 | four lines in merge order, each named exactly when its attribute is set |
| BoredPileV2.Merged | bom_automation_v2.py:952 | the merge keeps the named candidates in order |
| BoredPileV2.KeepNamedFour | bom_automation_v2.py:665-671 | the named filter on four lines keeps each named one in order, and counts them |
| BoredPileV2.Flights | bom_automation_v2.py:949-952 | the carrier quantity's error; otherwise two named flight lines exactly when two of the four flight attributes are set, else `ValueError` |
| BoredPileV2.StockedFlightsOnly | bom_automation_v2.py:641-653 | with only the stocked pair set, the flights are the lead with the auger's lead quantity and the carrier with the carrier quantity |
| BoredPileV2.DualTaperRock | bom_automation_v2.py:935-979 | `IndexError` without a diameter number, the flights' error, then `ValueError` exactly for an unlisted tooth type; a built list is the counted candidates and holds the teeth |
| BoredPileV2.DualTaperTeethKept | bom_automation_v2.py:977 | the counted first teeth line survives the filter |
| BoredPileV2.TriadRock | bom_automation_v2.py:981-1007 | fails only on the diameter or flights; the teeth are listed exactly for BC86 teeth |
| BoredPileV2.ZedAuger | bom_automation_v2.py:1009-1058 | fails only on the diameter or flights; always the teeth brace, the stiffener for a listed tooth type, the ZED centre exactly when the tube has one |
| BoredPileV2.ZedTailKept | bom_automation_v2.py:1009-1058 | the teeth brace, a counted stiffener and a named ZED centre survive the filter |
| BoredPileV2.ClayShaleAuger | bom_automation_v2.py:1060-1101 | fails only on the diameter or flights; the AR150 teeth are listed at every listed diameter |
| BoredPileV2.ClayTeethKept | bom_automation_v2.py:1060-1101 | at a listed diameter the AR150 teeth line survives the filter |
| BoredPileV2.GetClay | bom_automation_v2.py:869-900 | every listed diameter fits some AR150 teeth |
| BoredPileV2.BladeAuger | bom_automation_v2.py:1103-1131 | fails only on the diameter or flights; at a listed diameter the quarter OD101 pipe support is listed |
| BoredPileV2.BoredPileFiltered | bom_automation_v2.py:246-279 | every list holds only counted, named lines, no placeholder, and filtering again changes nothing |
| BoredPileV2.BoredPileComponents | bom_automation_v2.py:246-279 | the same selection as product_product.py (`BoredPile.KindOf`), to this revision's builders; a diameter without a number raises `IndexError` whatever the type |
| PileCasing.CasingItem | bom_automation_v2.py:208-210 | the " - Non-Stocked" suffix exactly for a casing flagged as not stocked |
| PileCasing.TypeLines | bom_automation_v2.py:207-231 | the casing unless left out, the teeth when chosen, then the drive band (Standard with a band) or the profiling line (any other type); a left-out casing appears nowhere |
| PileCasing.TypeComponents | bom_automation_v2.py:207-231 | the list grown step by step is the type's lines |
| PileCasing.NonStockOnlyRenames | bom_automation_v2.py:208-213 | a casing that is not stocked keeps every line; only the casing's name changes |
| PileCasing.OdText | bom_automation_v2.py:137-143 | without a wall the diameter prints as an integer; with one it prints as a float whose value is the diameter plus twice the wall |
| PileCasing.PermanentCasingFloat | bom_automation_v2.py:126-143 | with a whole wall the casing prints as `OD{d + 2w}.0 WT{w}` |
| PileCasing.FlatBar | bom_automation_v2.py:184-200 | the band's width and thickness printed as floats, `0.0` for both when unmatched |
| PileCasing.DriveQty | bom_automation_v2.py:190-198 | hundredths within half a hundredth of the ID-aligned girth for an ID-aligned band, else of the overlapped girth |
| PileCasing.OverlappedNotShorter | bom_automation_v2.py:190-198 | on a non-negative wall an overlapped band is never shorter than an ID-aligned one |
| PileCasing.CasingComponent | bom_automation_v2.py:176-205 | `AttributeError` without a diameter or wall number, `ValueError` on a decimal teeth count; otherwise the type's lines with the band's flat bar |
| PileCasing.PileCasingComponents | bom_automation_v2.py:107-174 | the validation error exactly for a Standard or Segmental casing neither flagged nor in the catalogue; a built list is the type's lines for the permanent casing |
| PileCasing.CasingComponentV1 | bom_automation_v1.py:87-115 | as in bom_automation_v2.py, but a band without an `x<digits>t` thickness also raises `AttributeError` |
| BoredPileV1.CarrierFlightQty | bom_automation_v1.py:475-496 | without "Dual Carrier" the bom_automation_v2.py quantity; with it, `ZeroDivisionError` exactly for a listed type with zero pitch times turns, 0 for other types, else twice the raw count rounded up to a half |
| BoredPileV1.DualCarrierNearDouble | bom_automation_v1.py:475-496 | a "Dual Carrier" auger gets at most twice the single-carrier quantity and more than that less one |
| BoredPileV1.DoubleThenRound | bom_automation_v1.py:475-496 | rounding twice a count up to a half lies within one below twice the rounded count |
| BoredPileV1.CarrierQty | bom_automation_v1.py:442-473 | without "Dual Carrier" the bom_automation_v2.py quantity; `IndexError` without a length number; with it, 0 for other types and `ZeroDivisionError` without a flight pair |
| BoredPileV1.BraceQty | bom_automation_v1.py:432 | two braces exactly for "Dual Carrier", else one |
| BoredPileV1.FlightBraceComponents | bom_automation_v1.py:418-440 | no table exactly for the excluded heads; otherwise the brace table with the carrier type's quantity |
| BoredPileV1.DualTaperBrace | bom_automation_v1.py:861-862 | `AttributeError` exactly for an excluded head; otherwise the diameter's bucket, named from 750 to 5000mm with two braces exactly for "Dual Carrier", the placeholder below 750mm |
| BoredPileV1.ZedBrace | bom_automation_v1.py:937-939 | an excluded head gets no brace; any other gets the diameter's bucket |
| BoredPileV1.BracesAgree | bom_automation_v1.py:937-939 | where the dual/taper brace step does not raise, it gives the ZED brace |
| BoredPileV1.DualTaperBraceCustomHead | bom_automation_v1.py:861-862 | a dual/taper auger on a custom head raises where a ZED auger simply has no brace |
| BoredPileBp.IdField | bp_bom_automation.py:356-403 | empty exactly for an unlisted tube; otherwise "ID" and the tube's table number; never holds `P` or `T` |
| BoredPileBp.CentreTubeId | bp_bom_automation.py:356-403 | empty exactly for a tube the table does not list; otherwise "ID" and its number; never holds `P` or `T` |
| BoredPileBp.NonStockFlight | bp_bom_automation.py:409-440 | empty exactly for an empty description; otherwise the seven fields with the tube's table ID, an empty ID for an unlisted tube |
| BoredPileBp.NonStockFlightReadBack | bp_bom_automation.py:409-440 | reading the built name back gives the description's pitch and thickness |
| BoredPileBp.NonStockLeadCarrierFlight | bp_bom_automation.py:405-455 | two lines: the non-stocked lead with the lead quantity and the non-stocked carrier with the carrier quantity, each the placeholder when its description is empty |
| BoredPileBp.NonStockLine | bp_bom_automation.py:442-455 | the placeholder for an empty description, else the built name with its quantity |
| BoredPileBp.FlightBraceComponents | bp_bom_automation.py:276-298 | the `(None, 0)` pair exactly for the excluded heads; otherwise the bom_automation_v1.py brace table |
| BoredPileBp.ResolveBrace | bp_bom_automation.py:762-763 | resolving the pair raises `AttributeError`, exactly then |
| BoredPileBp.DualTaperBraceAsV1 | bp_bom_automation.py:762-763 | the dual/taper brace step is bom_automation_v1.py's, raising for an excluded head |
| BoredPileBp.ZedBrace | bp_bom_automation.py:838-840 | the truthiness guard lets the pair through, so `AttributeError` exactly for an excluded head; otherwise the bom_automation_v1.py ZED brace |
| BoredPileBp.ZedBraceCustomHead | bp_bom_automation.py:838-840 | a ZED auger on a custom head raises here where bom_automation_v1.py gives no brace |
| BoredPileBp.BladeTeeth | bp_bom_automation.py:720-749 | nothing exactly for an unlisted diameter; otherwise the support is always one OD101 pipe and the end cap always the placeholder |
| BoredPileBp.BladeTeethAgainstV2 | bp_bom_automation.py:720-749 | the blade parts differ from bom_automation_v2.py only in the support's quantity, one pipe against a quarter |
| BoredPileBp.BladeTeethIntended | bp_bom_automation.py:721-723 | the hex fishtail pilot sits on the hex support with its end cap; any other pilot gets the written list |
| BoredPileBp.BladeHexPilotExample | bp_bom_automation.py:721-723 | a 300mm blade auger with the hex fishtail pilot gets the pipe support and no end cap where the hex support is intended |
| CfaCoupling.TablesHaveElbows | product_bom.py:1374-1487 | every configuration of both coupling tables starts with an elbow |
| CfaCoupling.Slot | product_bom.py:1489-1496 | one slot's part: empty exactly when the configuration lacks that slot |
| CfaCoupling.Built | product_bom.py:1489-1496 | never more parts than slots walked |
| CfaCoupling.BuiltHead | product_bom.py:1489-1496 | a filled first slot puts its part first |
| CfaCoupling.BuildResult | product_bom.py:1489-1496 | the loop collects exactly the filled slots' parts in slot order, the elbow first when there is one |
| CfaCoupling.NormalisedInner | product_bom.py:1499 | `-` and the empty name mean no inner tube; any other name is stripped |
| CfaCoupling.Selected | product_bom.py:1499-1512 | the exact centre/inner pair wins, then the centre tube alone, then the inner-tube fallback; whatever is chosen starts with an elbow |
| CfaCoupling.CentreTubeItems | product_bom.py:1368-1512 | no parts exactly when no configuration is selected; otherwise the selected configuration's parts in slot order, its elbow first |
| CfaCoupling.CentreTubeParts | product_bom.py:1368-1512 | the lookup with its collecting loop returns exactly the parts of the selected configuration, none when nothing is selected |
| CfaCoupling.ElbowName | product_bom.py:1368-1512 | the elbow handed on is the first part, empty for no parts |
| CfaCoupling.FemaleCoupling | product_bom.py:1668-1701 | no female coupling exactly for an unlisted drive head |
| CfaCoupling.MaleCoupling | product_bom.py:1703-1736 | no male coupling exactly for an unlisted drive head |
| CfaCoupling.BasePlate | product_bom.py:1531-1541 | each square drive head gets its own base plate, both 130mm heads the same one; every other head gets none |
| CfaCoupling.Metres | product_bom.py:1640-1643 | a listed height in metres, 0 for an unlisted name |
| CfaCoupling.PilotSupportFor | product_bom.py:1632-1638 | the Hex support exactly for the 19mm and 22mm pilots, the 75mm square exactly for 25mm, the 100mm square for every other pilot |
| CfaCoupling.CouplingHeight | product_bom.py:1626-1628 | a coupling's height in metres, 0 without a coupling |
| CfaCoupling.CouplingSlot | product_bom.py:1627-1629 | a coupling's slot depth in metres, 0 without a coupling |
| CfaCoupling.HeightsFor | product_bom.py:1618-1643 | every height the tube lengths use comes from its table, in metres, 0 when unlisted |
| CfaCoupling.CentreTubeLength | product_bom.py:1543-1569 | the centre-tube length is never negative, is in whole hundredths of a metre, and is within half a hundredth of the raw length's size |
| CfaCoupling.InnerTubeLength | product_bom.py:1571-1590 | the inner-tube length is never negative, is in whole hundredths of a metre, and is within half a hundredth of the raw length's size |
| CfaCoupling.InnerAgainstCentre | product_bom.py:1543-1590 | the inner tube differs from the centre tube by the coupling slots it reaches into; on a lead, by the elbow and the pipe extension instead of the male slot |
| CfaCoupling.CentreTubeGrows | product_bom.py:1543-1569 | where the centre tube fits, a longer auger never gets a shorter centre tube |
| CfaCoupling.CouplingLine | product_bom.py:1651-1654 | a coupling line of one, named empty without a coupling |
| CfaCoupling.CouplingParts | product_bom.py:1649-1656 | three lines: the female coupling, the male coupling only on an Intermediate or Extension (the placeholder otherwise), and the base plate, each of one |
| CfaCoupling.TubeParts | product_bom.py:1645-1658 | the centre tube and the inner tube by name, their lengths exactly `CentreTubeLength` and `InnerTubeLength` on the drive head's, pilot's, ZED centre's and elbow's heights, so never negative and in whole hundredths of a metre |
| CfaCoupling.DriveHeadParts | product_bom.py:1514-1666 | five lines: the couplings and base plate, then the centre and inner tubes by name, whose lengths are never negative and in whole hundredths |
| CfaCoupling.ElbowHeightMissed | product_bom.py:1604-1609 | the 75NB and 50NB elbows the coupling tables yield count as 0mm high, while the 105NB and 125NB ones are measured |
| CfaCoupling.EveryElbowMeasured | product_bom.py:1604-1611 | with the intended height keys, every elbow a configuration yields is measured |
| CfaCoupling.PilotSupportMissed | product_bom.py:1633-1638 | the 19.4mm pilot, whose parts list the hex support, is measured on the 100mm square support |
| CfaCoupling.PilotSupportIntended | product_bom.py:1632-1638 | the Hex support exactly for the 19.4mm and 22mm pilots, the 75mm square for 25mm, the 100mm square otherwise |
| CfaCoupling.PilotSupportIntendedAgrees | product_bom.py:1632-1638 | the intended support is the one every Dual/Taper pilot's parts list |
| CfaFlights.FlightValuesOf | product_bom.py:1753-1771 | pitch and thickness are the attribute's `P` and `T` numbers, 0 when absent; the `R` turns are kept exactly when present and above one |
| CfaFlights.IdField | product_bom.py:1779-1801 | always "ID" then digits: the tube's `ID` number for a coupling flight that has one, otherwise its `OD` number, otherwise nothing |
| CfaFlights.FlightFields | product_bom.py:1800-1807 | seven fields, starting "Flight -", with the ID field third and the pitch field fourth |
| CfaFlights.FlightCombination | product_bom.py:1738-1807 | no name when neither attribute is set or a coupling flight has no coupling ID; `AttributeError` exactly when a name is due and the OD attribute has no `OD<n>`; otherwise the space-joined seven fields |
| CfaFlights.FlightNameNonEmpty | product_bom.py:1800-1807 | an assembled flight name is never empty |
| CfaFlights.FlightPitchReadBack | product_bom.py:1738-1807 | the pitch read back out of a built name is the attribute's pitch, so the quantities see it |
| CfaFlights.FieldsPitch | product_bom.py:1800-1807 | the first `P` number of the joined fields is the pitch field |
| CfaFlights.MissingFlights | product_bom.py:1843-1859 | nothing is missing exactly when all three flights exist; otherwise the first missing combination in the listed order |
| CfaFlights.CheckFlightValidation | product_bom.py:1843-1864 | passes exactly when all three flights exist or the Override BOM is set; otherwise a `ValidationError` naming the first missing combination |
| CfaFlights.AllMissingNamesTwo | product_bom.py:1846-1847 | with all three flights missing the message names only the lead and carrier flights |
| CfaFlights.LeadFlightQty | product_bom.py:1866-1872 | one lead flight exactly for a Lead of the Clay/Shale, Blade or Single Cut type, two otherwise |
| CfaFlights.CarrierFlightQty | product_bom.py:1906-1924 | 0 for a type other than Lead or Intermediate and for a zero span; otherwise a whole or half count at least the raw count and under half a flight above it |
| CfaFlights.CarrierFlightQtyIsLeast | product_bom.py:1906-1924 | no half step that covers the raw count is smaller than the carrier quantity |
| CfaFlights.LeadNeedsNoMoreCarriers | product_bom.py:1910-1922 | with a positive span a lead never needs more carrier flights than an intermediate of the same length |
| CfaFlights.CouplingFlightQty | product_bom.py:1926-1932 | 0 without a coupling flight; `ZeroDivisionError` exactly when pitch times turns is 0; otherwise a whole or half count at most the raw count and less than half a flight below it |
| CfaFlights.CouplingFlightQtyIsGreatest | product_bom.py:1926-1932 | no half step within the raw count is larger than the coupling quantity |
| CfaFlights.PitchesOf | product_bom.py:1878-1893 | all pitches and turns are 0 when no flight is named; otherwise each flight's own pitch and turns |
| CfaFlights.FemaleHeightMm | product_bom.py:1896-1897 | the female coupling's height, 0 for an unlisted drive head |
| CfaFlights.CarrierCouplingQty | product_bom.py:1874-1904 | raises exactly when the coupling quantity does; otherwise the coupling quantity and the carrier quantity less it |
| CfaFlights.CouplingFollowsLead | product_bom.py:1814-1816 | a coupling flight built from the lead attributes never raises when the lead flight does not |
| CfaFlights.FlightNames | product_bom.py:1814-1816 | succeeds exactly when the lead and carrier names can be built, and then holds all three names |
| CfaFlights.FlightLines | product_bom.py:1818-1841 | a failed check raises its `ValidationError`; a zero span raises `ZeroDivisionError`; otherwise the named lines with the lead count and the absolute carrier and coupling counts, or none under an Override BOM; every returned line is named, non-negative and in the catalogue |
| CfaFlights.InCatalogue | product_bom.py:1818-1840 | lines named after three catalogued flights are all catalogued |
| CfaFlights.NamedFlights | product_bom.py:1833-1840 | only lines with a name are kept, each with a non-negative quantity and one of the three flight names |
| CfaFlights.LeadCarrierCouplingFlights | product_bom.py:1809-1841 | `AttributeError` when a name cannot be built; otherwise the checked flight lines; with the Override BOM the list is empty; every line is named, non-negative and in the catalogue |
| CfaTeeth.RoundNearestOdd | product_bom.py:1303-1307 | always odd, and within one of the number |
| CfaTeeth.RoundNearestOddIsNearest | product_bom.py:1303-1307 | no odd number is nearer to the number than the one chosen |
| CfaTeeth.DualTaperPilotOd | product_bom.py:1294-1301 | 0 exactly for an unlisted pilot; otherwise 78, 150 or 200 mm |
| CfaTeeth.DualTaperCount | product_bom.py:1309-1312 | the Dual/Taper teeth count is odd and within one of the raw count |
| CfaTeeth.DualTaperTeeth | product_bom.py:1293-1366 | an unknown set gives only the pilot's parts; a known set gives its tooth with an odd count, four holders fewer, then the pilot's parts |
| CfaTeeth.ZedCount | product_bom.py:1264-1267 | the ZED teeth count is even, the raw count rounded or one above it |
| CfaTeeth.ZedTeeth | product_bom.py:1260-1291 | raises `TypeError` exactly when the centre tube has no diameter; an unknown set gives no lines; a known set gives an even tooth count, as many holders, and a whole number of button carbides, half the 42mm-spacing count |
| CfaTeeth.EvenHalves | product_bom.py:1264-1291 | an even teeth count halves to a whole number of button carbides |
| CfaTeeth.ClayCount | product_bom.py:1201-1204 | the Clay/Shale teeth count is even, the raw count rounded or one above it |
| CfaTeeth.ClayShaleTeeth | product_bom.py:1198-1258 | an unknown set gives only the pilot's parts; a known set gives its tooth with an even count, as many holders, then the pilot's parts |
| CfaTeeth.SingleCutCount | product_bom.py:1159-1161 | the Single Cut teeth count is within one half of the raw count |
| CfaTeeth.SingleCutTeeth | product_bom.py:1156-1196 | an unknown set gives only the pilot's parts; a known set gives its rounded tooth count, as many holders, then the pilot's parts |
| CfaTeeth.SingleCutKeepsOddCount | product_bom.py:1156-1258 | the parity rules differ: at 610mm the same set gets three teeth on a Single Cut auger and four on a Clay/Shale auger |
| CfaTeeth.TeethAndPilot | product_bom.py:1109-1127 | the lead type picks the teeth rule; a ZED lead raises `TypeError` exactly when the centre tube name has no `OD<n>`; any other lead type gets the `(None, 0)` pair |
| CfaTeeth.ZedCentre | product_bom.py:1129-1154 | the tube's ZED centre, empty exactly for an unlisted tube, then two flight stiffeners, the under-600 kind exactly below 600mm |
| HighTensileAdapter.FemalePartsNamed | product_bom.py:805-844 | every drive's female part has a name |
| HighTensileAdapter.Female | product_bom.py:805-844 | a listed drive's female part is never empty |
| HighTensileAdapter.Reducer | product_bom.py:247-255 | empty exactly for an unlisted Reducer attribute; otherwise the listed reducer part |
| HighTensileAdapter.BasePlate | product_bom.py:257-269 | a base plate exactly for a listed head other than the 75mm one, and it is that head's listed plate |
| HighTensileAdapter.SidesOf | product_bom.py:881-893 | both female parts are present and the male parts are the drives' own, possibly missing |
| HighTensileAdapter.SidesOfSwap | product_bom.py:881-893 | turning the two drives round swaps every lookup |
| HighTensileAdapter.WiderHead | product_bom.py:881-887 | one of the two female parts, at least as wide as each, the `to` part on a tie |
| HighTensileAdapter.TypeParts | product_bom.py:889-896 | a base-plate slot exactly for the four adapter types; female types take the female parts and male types the male parts on the right sides |
| HighTensileAdapter.Entry | product_bom.py:901-903 | a present part is one line of it; a missing or empty part is the `(None, 0)` placeholder |
| HighTensileAdapter.EntryName | product_bom.py:970-976 | a placeholder entry has no name; any other entry its own name |
| HighTensileAdapter.DriveHead | product_bom.py:792-904 | `TypeError` exactly when a drive has no female part; otherwise three entries: the `from` part, the `to` part and the base plate the type selects |
| HighTensileAdapter.AppendParts | product_bom.py:898-904 | the three appended entries are the `from` part, the `to` part and the base plate, in that order |
| HighTensileAdapter.MaleToMaleHasNoBasePlate | product_bom.py:891 | a Male to Male adapter has no base plate, and its sides are the drives' male parts |
| HighTensileAdapter.UnknownTypeHasNoParts | product_bom.py:896 | an unknown adapter type gives three placeholders |
| HighTensileAdapter.MixedTypesMirror | product_bom.py:892-893 | Female to Male one way is Male to Female the other way round, with the same base plate |
| HighTensileAdapter.FemaleToFemaleSymmetric | product_bom.py:881-890 | for heads of different widths, Female to Female either way round swaps the sides and keeps the wider head's base plate |
| HighTensileAdapter.FemaleSidePresent | product_bom.py:890-892 | the `from` side of a Female to Female or Female to Male adapter is always its female part |
| HighTensileAdapter.RingLabelsCoverMatrix | product_bom.py:924-966 | every key a matrix row marks has a ring label naming it |
| HighTensileAdapter.StubAndDrive | product_bom.py:968-976 | a Female to Male adapter's stub is the `to` entry and its head the `from` entry, and the other way round for Male to Female; any other type looks at nothing |
| HighTensileAdapter.PreferredStub | product_bom.py:987-992 | a matrix key exactly when the stub's name says stub and holds a two- or three-digit width |
| HighTensileAdapter.StubRing | product_bom.py:994-997 | a ring exactly when the row marks the preferred stub, and then that stub's ring label |
| HighTensileAdapter.StiffeningRing | product_bom.py:911-997 | no ring for a non-mixed type; a missing head raises `TypeError`; a 75mm head takes the head ring; an unlisted head takes none; a missing stub on a listed head raises; otherwise the stub's ring or the placeholder |
| HighTensileAdapter.OnlyMixedAdaptersRing | product_bom.py:968-985 | Female to Female, Male to Male and unknown adapters take no ring |
| HighTensileAdapter.MixedAdapterHeadPresent | product_bom.py:228-229 | a mixed adapter's head side is always present, so the ring rule never meets a missing head |
| HighTensileAdapter.HeadWidth | product_bom.py:906-909 | a drive head's width is the number written before "mm" |
| HighTensileAdapter.Head100Listed | product_bom.py:924-966 | the 100mm head is 100mm wide and in the matrix |
| HighTensileAdapter.Female100 | product_bom.py:805-844 | the 100mm square drive's female part is the 100mm drive head |
| HighTensileAdapter.RoundDriveFemale | product_bom.py:805-844 | the 65mm round drive has a female part |
| HighTensileAdapter.RoundDriveNoMale | product_bom.py:845-879 | the 65mm round drive has no male part |
| HighTensileAdapter.RoundDriveSides | product_bom.py:881-893 | the 100mm square to 65mm round adapter looks up the 100mm head and no male part |
| HighTensileAdapter.MissingStubRaisesOn | product_bom.py:968-995 | a Female to Male adapter onto a drive without a male part, on a listed head other than 75mm, raises `AttributeError` |
| HighTensileAdapter.MissingStubRaises | product_bom.py:968-995 | the 100mm square to 65mm round Female to Male adapter raises `AttributeError` |
| HighTensileAdapter.StiffeningRingIntended | product_bom.py:968-997 | agrees with the written rule wherever that does not raise; a missing stub on a listed head gives the placeholder |
| HighTensileAdapter.MissingStubIntended | product_bom.py:968-997 | with the intended guard a mixed adapter missing its stub gets the placeholder |
| HighTensileAdapter.LiftLugCount | product_bom.py:230-231 | `ValueError` exactly when the leading number has a decimal part; 0 without a leading number; never negative |
| HighTensileAdapter.LiftLugWritten | product_bom.py:230-231 | a whole number at the start of the attribute is the count |
| HighTensileAdapter.LiftLugDecimalRaises | product_bom.py:230-231 | a decimal at the start of the attribute raises `ValueError` |
| HighTensileAdapter.AdapterLiftLug | product_bom.py:230-232 | raises exactly when the count does; a lift-lug line exactly when the attribute is set, with its count |
| HighTensileAdapter.Components | product_bom.py:218-245 | raises exactly when a drive lacks a female part (`TypeError`), the ring rule raises, or the lift lug is a decimal (`ValueError`); otherwise the named drive parts, base plate, reducer, ring and lift lug |
| HighTensileAdapter.MaleToMaleBill | product_bom.py:236-244 | a Male to Male adapter's bill has no base plate and no ring |
| HighTensileAdapter.LiftLugListed | product_bom.py:230-244 | a set Lift Lug attribute always puts its lift-lug line on the bill, unless it raises |
| ExtensionBar.Find | product_bom.py:466-533 | no row exactly when no drive has the key; otherwise a listed drive with that key |
| ExtensionBar.SameRow | product_bom.py:396-406 | no two drives share a size and a make |
| ExtensionBar.KeyInjective | product_bom.py:396-533 | each table names each drive differently, so its key identifies the drive |
| ExtensionBar.RowOfKey | product_bom.py:466-533 | looking up a drive's own key finds that drive |
| ExtensionBar.HeadNameInjective | product_bom.py:396-406 | different drives have different drive heads |
| ExtensionBar.DriveMm | product_bom.py:460-463 | the size read from a drive's name is its size in mm |
| ExtensionBar.FemaleMm | product_bom.py:343-348 | the size read from a female end's name is its drive's size |
| ExtensionBar.DriveHead | product_bom.py:395-407 | a drive head exactly for a listed drive |
| ExtensionBar.FemaleHead | product_bom.py:409-425 | a gusset head exactly for a listed female end |
| ExtensionBar.MaleHead | product_bom.py:427-443 | a stub head exactly for a listed male end |
| ExtensionBar.HeadOf | product_bom.py:395-443 | a head exactly when the drive was found |
| ExtensionBar.HeadFromFemale | product_bom.py:445-455 | no head for an unset, "N/A" or custom end; any head found starts "Drive Head - " |
| ExtensionBar.DiggaHead | product_bom.py:450-452 | the Digga female end gives the DIGGA head |
| ExtensionBar.PatternHead | product_bom.py:449-454 | every other listed female end is read by the pattern into its drive's head |
| ExtensionBar.FemaleHeadAgrees | product_bom.py:409-455 | for all nine female ends, the head read from the name is the head the gusset table lists |
| ExtensionBar.TubeParts | product_bom.py:547-618 | `IndexError` exactly when a set female or male end is unlisted; otherwise the tube comes first, as long as the bar less the cut, rounded to hundredths |
| ExtensionBar.TubePartsListed | product_bom.py:583-618 | with both ends listed, the tube, then the rigid bar's base plates and far head, then the stubs |
| ExtensionBar.CentreTube | product_bom.py:457-618 | raises `IndexError` exactly when the female or male end is set but unlisted |
| ExtensionBar.ShorterRounds | product_bom.py:584 | taking a height off never makes the rounded length longer |
| ExtensionBar.TubeWithinBar | product_bom.py:562-584 | the centre tube is never longer than the bar |
| ExtensionBar.TubeGrowsWithBar | product_bom.py:562-584 | a longer bar never gets a shorter centre tube |
| ExtensionBar.InnerTubeOnly | product_bom.py:563-564 | a telescopic inner bar's list is its tube less the head and nothing else |
| ExtensionBar.UnsetEnd | product_bom.py:551-552 | an unset end is found in no table |
| ExtensionBar.ReadFemaleEnd | product_bom.py:534-560 | a rigid bar with a listed female end reads both drives' rows, the far head and both sizes |
| ExtensionBar.ReadMaleEnd | product_bom.py:534-560 | a bar with a listed male end reads its drive's row and the male end's row, and no far head |
| ExtensionBar.FemaleEndParts | product_bom.py:568-604 | a rigid bar with a female end loses both heads and both base plates from its tube |
| ExtensionBar.FemaleEndRigidParts | product_bom.py:589-604 | a rigid bar with a female end lists one base plate per size, or two of one, and the far head when it differs |
| ExtensionBar.MaleEndParts | product_bom.py:570-617 | a rigid bar with a male end loses both stubs; the same drive at both ends takes two of its stub, different drives one each, the far one first |
| ExtensionBar.CentreTubeParts | product_bom.py:457-618 | the imperative tube builder gives exactly the functional result |
| ExtensionBar.AppendParts | product_bom.py:547-618 | once the tables are read, the appended parts are exactly the tube and its end parts |
| ExtensionBar.CutLength | product_bom.py:562-573 | the summed heights are exactly the cut the bar type and ends call for |
| ExtensionBar.AppendRigid | product_bom.py:586-609 | the rigid bar appends its base plates, far head and far stub after the tube, and its own stub is doubled exactly for a male end of the same head |
| ExtensionBar.Collar | product_bom.py:388-393 | a collar exactly for the two square-billet tubes |
| ExtensionBar.BarGusset | product_bom.py:620-790 | a gusset only for a head of a known group, one of it; the 130mm table matches the `Hollow273` key but not the lower-case hollow bar name; every other tube gets the drill tools' gusset |
| ExtensionBar.BarLiftLug | product_bom.py:369-371 | raises exactly when the count does; a lift-lug line exactly when the attribute starts with a number, with its count |
| ExtensionBar.InnerBar | product_bom.py:306-320 | raises exactly when the tube or the lift lug does |
| ExtensionBar.OuterBar | product_bom.py:322-337 | raises exactly when the tube or the lift lug does |
| ExtensionBar.RigidBar | product_bom.py:339-386 | raises exactly when the tube or the lift lug does |
| ExtensionBar.Components | product_bom.py:283-304 | raises `IndexError` exactly for an unlisted female or male end, else `ValueError` exactly for a decimal lift lug |
| ExtensionBar.KeepFirst | product_bom.py:385 | a named line at the head stays at the head of the filtered list |
| ExtensionBar.RigidMaleHasNoHead | product_bom.py:355-385 | a rigid bar with a male end lists no drive head and no gusset, only its tube parts and lift lug |
| ExtensionBar.RigidHeadQty | product_bom.py:352-356 | without a male end the list starts with the bar's own head, twice exactly when the female end carries the same head |
| ExtensionBar.RigidGussets | product_bom.py:360-383 | without a male end the bar's gusset is listed, twice when the female end has the same head or size, and the female end's gusset when its size differs |
| ExtensionBar.InnerBarParts | product_bom.py:306-320 | a telescopic inner bar lists its head, its tube less the head, its collar and its lift lug, and nothing else |
| ExtensionBar.OuterOwnStub | product_bom.py:322-337 | a telescopic outer bar without female end or adaptor lists its own stub, twice with a male end, and a tube less its head and stub |
| ExtensionBar.RigidFemaleEndHead | product_bom.py:283-386 | a rigid bar with a female end starts with its own head, two of them exactly when both ends are the same drive |
| ExtensionBar.LugNeedsNumber | product_bom.py:230-232 | an attribute without a leading number gives a bar no lift lug but an adapter one of quantity 0 |
| ExtensionBar.LetterFirst | product_bom.py:369 | a text starting with a letter has no leading number |
| DraftHelpers.TypeSides | bom_automationv2.py:410-417 | an unknown type selects nothing; female types take the drive's female part and male types its male part on the right sides |
| DraftHelpers.Listed | bom_automationv2.py:419-425 | each present part once, with quantity 1, the `from` part first; absent parts leave no line |
| DraftHelpers.DriveHead | bom_automationv2.py:323-425 | the appended lines are exactly the present parts the type selects, `from` side first |
| DraftHelpers.UnknownTypeListsNothing | bom_automationv2.py:417-425 | an unknown adapter type lists no drive-head part |
| DraftHelpers.TurnedRound | bom_automationv2.py:410-425 | turning an adapter round reverses its parts: Female to Female and Male to Male stay, Female to Male becomes Male to Female |
| DraftHelpers.ReversedPair | bom_automationv2.py:419-425 | swapping the two parts reverses what is listed |
| DraftHelpers.FemalePartsNamed | bom_automationv2.py:336-374 | every drive's female part has a name |
| DraftHelpers.FemaleToFemaleListsBoth | bom_automationv2.py:411-423 | a Female to Female adapter between two listed drives lists both female parts, `from` first |
| DraftHelpers.BasePlate | bom_automationv2.py:149-160 | one base plate, named exactly when the head is listed, and then the listed plate |
| DraftHelpers.TubeOf | bom_automationv2.py:191-203 | no tube for a bar type and tube that do not go together; an inner billet loses its head, an outer or rigid tube its head and stub, rounded to hundredths |
| DraftHelpers.CentreTube | bom_automationv2.py:162-203 | no tube for a bar type and tube that do not go together; otherwise the named tube |
| DraftHelpers.TubeWithinBar | bom_automationv2.py:194-200 | a centre tube is never longer than its bar |
| DraftHelpers.StubShortensTube | bom_automationv2.py:194-200 | on the same head and length an outer or rigid tube is no longer than an inner one |
| DraftHelpers.DraftGussetsFitGroup | bom_automationv2.py:221-308 | every gusset of a group's table is sized for the group's own drive |
| DraftHelpers.DraftGusset | bom_automationv2.py:205-321 | a gusset exactly when the head's group lists the tube, one of that listed gusset |
| DraftHelpers.DraftGussetFitsHead | bom_automationv2.py:205-321 | a chosen gusset is sized for the drive of the head's group |
| DraftHelpers.DraftPipeGusset | bom_automationv2.py:279 | this revision gives a 150mm head on the 168mm WT11 pipe a 150mm gusset |
| DraftHelpers.LaterPipeGusset | product_bom.py:719 | the later revision gives the same head and pipe a 130mm gusset |
| DraftHelpers.Collar | bom_automationv2.py:95-97 | the collar chosen is the one the later revision's collar table gives |
| CfaAuger.TeethLines | product_bom.py:93-100 | the teeth group raises `TypeError` exactly when the lead type has no teeth rule (the bare `(None, 0)` pair is subscripted) or a ZED centre tube has no OD number; otherwise it is the teeth-and-pilot lines |
| CfaAuger.BaseOf | product_bom.py:85-89 | the couplings-and-tubes group is never empty and starts with the drive head's female coupling, one of it |
| CfaAuger.FlightsOf | product_bom.py:91 | with the Override BOM set, a flight group that does not raise is empty |
| CfaAuger.LeadBill | product_bom.py:83-106 | a lead builder raises the flights' error first, then the teeth's; it succeeds exactly when both groups do, and then holds the named lines of couplings, flights, teeth, centre-tube parts and its own parts, in that order |
| CfaAuger.DualTaperRock | product_bom.py:83-106 | the rock lead's bill is the common lead bill with no parts of its own after the centre-tube parts |
| CfaAuger.Zed | product_bom.py:150-173 | the ZED bill is the common lead bill ending with the ZED centre and its stiffeners |
| CfaAuger.SingleCut | product_bom.py:175-204 | the Single Cut bill is the common lead bill ending with its profiling part |
| CfaAuger.ProfilingName | product_bom.py:186-193 | the Single Cut profiling part is named after the diameter and the centre tube's OD number, with nothing in its place when the tube has none |
| CfaAuger.RingEntry | product_bom.py:116 | the stiffening-ring entry raises `IndexError` exactly when the centre tube has two parts or fewer, and is an unnamed placeholder otherwise |
| CfaAuger.Intermediate | product_bom.py:108-128 | an Intermediate raises its flights' error first, then `IndexError` exactly when the centre tube has two parts or fewer; otherwise it holds the named couplings, tubes and flights |
| CfaAuger.Extension | product_bom.py:130-148 | an Extension raises `IndexError` exactly when the centre tube has two parts or fewer, and otherwise holds only its named couplings and tubes |
| CfaAuger.Components | product_bom.py:37-81 | a Lead goes to the rock, ZED or Single Cut builder by its lead type and gets no parts for any other lead type; an Intermediate goes to its builder, every other type to the Extension builder; every line built is named |
| CfaAuger.AugerComponents | product_bom.py:37-81 | reading the Auger Diameter raises `AttributeError` without a digit and `ValueError` when its number has a point, before any builder runs; otherwise the dispatcher's bill for the number read, all of its lines named |
| CfaAuger.DiameterUnreadable | product_bom.py:65 | an empty Auger Diameter makes every CFA variant raise `AttributeError`, and one such as "600.5mm" `ValueError` |
| CfaAuger.LeadBillEndsWithTail | product_bom.py:160-171 | a lead builder's bill ends with the last of its own parts whenever that part is named |
| CfaAuger.SingleCutEndsWithProfiling | product_bom.py:175-204 | a Single Cut bill always ends with its profiling part, one of it |
| CfaAuger.ZedEndsWithStiffeners | product_bom.py:150-173 | a ZED bill always ends with two flight stiffeners, the under-600mm kind exactly when the diameter is below 600mm |
| CfaAuger.DispatchedLeadRaises | product_bom.py:66-75 | a dispatched lead never meets the missing-teeth pair: a rock or Single Cut lead raises exactly when its flights do, a ZED lead also when its centre tube has no OD number |
| CfaAuger.NoFlightsBill | product_bom.py:95-104 | a lead bill whose flight group is empty is its couplings, teeth, centre-tube parts and own parts, named lines only |
| CfaAuger.OverrideDropsFlights | product_bom.py:91-104 | with the Override BOM set a lead's bill holds no flight |
| CfaAuger.LeadBillStartsWithBase | product_bom.py:95-104 | a lead builder's bill starts with its first coupling whenever that is named |
| CfaAuger.BillStartsWithBase | product_bom.py:37-81 | whatever the dispatcher builds for a listed lead type, an Intermediate or an Extension starts with the first coupling whenever that is named |
| CfaAuger.BillStartsWithFemaleCoupling | product_bom.py:37-204 | on a listed drive head, every bill the dispatcher builds starts with that head's female coupling |

## Left out

- PyText.Lower: treats text as ASCII: only A-Z are lowered, whereas Python's `str.lower()` lowers every Unicode cased letter and can change the length (`"İ".lower()` has two characters).
- PyText.IsDigit: treats text as ASCII: only 0-9 are digits, whereas Python's `\d` and `int()` also accept other Unicode decimal digits. `PyRegex.IsSpace`, by contrast, follows Python's Unicode whitespace.
- Persistence of the bill of materials, the record-creation overrides and the existing-BOM check are host ERP calls, so they are not modelled. The rules return the component lines instead.
- Catalogue searches become an `inCatalogue: string -> bool` parameter. The model says nothing about which names the catalogue holds.
- E-mail notification, logging, and price, unit-of-measure and currency computation are calls into other ERP models, so they are not modelled.
- `_load_teeth_data` reads a CSV file, so it is not modelled. `_get_teeth_for_diameter` works over the map it is given.
- Work-centre operation lists are constant routing data attached during persistence, so they are not modelled.
- π is the constant 3.141592653589793 (`PyNum.Pi`). The circumference formulas are proved only for ordering facts, such as the overlapped drive band never being shorter than the ID-aligned one, because binary floating point is not modelled.
- Quantities are exact reals. Binary-float representation effects of Python's `float` are ignored.
- No regular-expression engine is modelled. The few searches the rules depend on are written as functions (`PyRegex`). Other extracted numbers are parameters:
  - the length in metres (`lengthM`);
  - the pile-casing scans (`PileCasing.Scan`).
- The `_get_high_tensile_adapter_components` builder of `bom_automationv2.py` (lines 33-59) is not modelled: it is declared without the `product` parameter that its caller passes (line 29), so the call raises `TypeError`; its body also reads `product`, `drive_head`, `_lift_lug` and `_stiff_ring`, none of them bound. Only its helpers are modelled (`DraftHelpers`).
- The `_get_extension_bar_components` dispatcher of `bom_automationv2.py` (lines 72-91) is not modelled. It binds `product` and the attributes. For a Telescopic Inner or Telescopic Outer bar, the test at line 84 or 86 reads `inner_outer_items`, which is never bound, and raises `NameError`. A Rigid bar goes to `_get_eb_rigid_components`, which raises `TypeError` at line 128. Every other type returns an empty list.
- The three extension-bar builders of `bom_automationv2.py`, `_get_eb_telescopic_inner_components`, `_get_eb_telescopic_outer_components` and `_get_eb_rigid_components` (lines 93-147), are not modelled. Each calls the five-parameter `_get_extension_bar_center_tube` with four arguments (lines 94, 111 and 128), so each raises `TypeError` before it reaches its collar, gusset or lift lug. Their non-empty-name filters (lines 107, 123 and 146) are therefore not modelled either. The collar rule they share is modelled as `DraftHelpers.Collar`.
- Line 49 of `bom_automation_v1.py` holds stray text, so that file does not parse as written. Its functions are modelled as if the text were absent. Its `_get_pile_casing_components` (lines 15-85) reads `s_ring` at line 69 although nothing binds it, so it raises whenever it runs. It is not modelled, and `PileCasing.CasingComponentV1` takes the profiling text as a parameter.
- BarrelFrontEnd.FrontEndLines: the front-end dispatcher has no contract of its own. Each front end's parity rule is proved on its own function.
- CfaAuger.Components: the builders' groups are a parameter (`Groups`), and `CfaAuger.AugerComponents` collects them from their helpers. The contract does not restate the helpers, so that each proof stays small.
- CfaAuger.Intermediate: `ctube_at3[3] if len(ctube_at3) <= 2` raises `IndexError` whenever it indexes at all. No corrected reading is modelled, because the intended stiffening ring is not evident from the source.

## Findings

| source | as written | input that shows it | evidently intended | confidence | as-written member | corrected member |
|---|---|---|---|---|---|---|
| product_product.py:717-731 | the pilot-support offset is looked up by the support name's first character, which is never a key | a 6000mm tube under "Drive Head - 75mm Square" with "Pilot Support - Hex" is 5.85m long | looked up by the support's name, so the tube is 5.78m | not executed | AugerParts.CentreTubeHexPilotExample | AugerParts.CentreTubeIntended |
| bom_automation_v2.py:480-506 | the pilot-support pair itself is the lookup key, so no offset is ever found | the hex support under a 75mm head shortens the tube by 150mm only | shortened by the support's 75mm offset as well (225mm) | not executed | AugerPartsV2.CentreTubeHexExample | AugerPartsV2.CentreTubeIntended |
| product_product.py:1355-1356 | the third tooth's tuple is spliced in element by element, leaving a bare count that the builder's filter subscripts | a Clay/Shale auger on the AR150 branch with a rock pilot raises `TypeError` | the third tooth listed as a line | not executed | AugerTeeth.ClayShaleThirdToothIsBare | BoredPile.ClayShaleAugerIntended |
| product_product.py:929-934 | three separate `if`s, so the last one wins | with both flights missing the message names only "Carrier Flight" | "Lead Flight & Carrier Flights" | not executed | AugerFlights.MissingFlightBothExample | AugerFlights.MissingFlightIntended |
| product_product.py:936-937 | operator precedence makes a missing lead flight raise whatever the Override BOM says | an overridden BOM without its lead flight raises `ValidationError` | an overridden BOM never raises on a missing flight | not executed | AugerFlights.OverrideStillRaises | AugerFlights.LeadOrCarrierFlightIntended |
| bom_automation_v2.py:773-785 | the ZED teeth count is the raw quotient, not rounded | a 600mm auger on a 150mm tube with BC05 teeth gets 860/42 teeth | an odd whole count, 21 | not executed | AugerTeethV2.ZedFractionalExample | AugerTeethV2.ZedCountIntended |
| bom_automation_v2.py:904-907 | `pilot` is reassigned before the hex check, so the check never matches | a 300mm blade auger with the hex fishtail pilot gets the pipe support and no end cap | the hex support and its end cap | not executed | AugerTeethV2.BladeHexPilotExample | AugerTeethV2.BladeTeethIntended |
| bp_bom_automation.py:720-723 | `pilot` is reassigned before the hex check, so the check never matches | a 300mm blade auger with the hex fishtail pilot gets the pipe support and no end cap | the hex support and its end cap | not executed | BoredPileBp.BladeHexPilotExample | BoredPileBp.BladeTeethIntended |
| bom_automation_v1.py:861-862 | the dual/taper brace reads an attribute of the empty list an excluded head gets | a dual/taper auger on "Custom Head" raises `AttributeError` | no brace, as for a ZED auger | not executed | BoredPileV1.DualTaperBraceCustomHead | BoredPileV1.ZedBrace |
| bp_bom_automation.py:838-840 | the `(None, 0)` placeholder for an excluded head is truthy, so its brace step reads an attribute of it | a ZED auger on "Custom Head" raises `AttributeError` | no brace | not executed | BoredPileBp.ZedBraceCustomHead | BoredPileV1.ZedBrace |
| product_bom.py:1604-1609 | the elbow heights are keyed "Xxstrong" where the coupling tables name the elbows "Xstrong" | the 75NB and 50NB elbows count as 0mm high | 158mm and 106mm | not executed | CfaCoupling.ElbowHeightMissed | CfaCoupling.EveryElbowMeasured |
| product_bom.py:1632-1638 | the pilot check names a "19mm Teeth Pilot" where the teeth tables name "19.4mm" | the 19.4mm pilot, whose parts list the hex support, is measured on the 100mm square support | the hex support | not executed | CfaCoupling.PilotSupportMissed | CfaCoupling.PilotSupportIntended |
| product_bom.py:968-997 | a mixed adapter with no stub looks up `None` and calls `.lower()` on it | a 100mm square to 65mm round Female to Male adapter raises `AttributeError` | the `(None, 0)` placeholder | not executed | HighTensileAdapter.MissingStubRaises | HighTensileAdapter.StiffeningRingIntended |
| product_product.py:2374-2375 | the hinge names are bound only inside the branch the lookup takes | a cleaning bucket of 5000mm or more raises `UnboundLocalError` | the bucket listed without hinge parts | not executed | Barrel.BucketHandleUnbound | Barrel.BucketHandleIntended |
