/**
 * The tremie-pipe bill of materials of product_product.py
 * (`_get_tre_pipe_components`, `_get_tp_intermediate`,
 * `_get_tp_lead_section`, `_get_c3_qty`).
 *
 * A section is a length of pipe with couplings: an intermediate section has
 * a female and a male coupling, a lead section a female coupling only (the
 * 4" lead section a 4" coupling and a CFA plug holder). The pipe is cut
 * shorter than the section by an allowance that depends on the diameter in
 * inches. The length's first number may be a decimal (`\d+\.\d+|\d+`), the
 * diameter's is a whole number (`\d+`); the first of each that
 * `re.findall` finds is indexed without a check, so a value without digits
 * raises `IndexError`.
 */
module Tremie {
  import opened BomWrappers
  import opened PyText
  import opened PyRegex
  import opened Bom

  /** The tremie-pipe attribute values (`Type_TP`, `Length_TP`, `Diameter_TP`, `Pipe Size_TP`), "" when unset. */
  datatype Attrs = Attrs(kind: string, length: string, diameter: string, size: string)

  const FourInch := "4\" Diameter"

  /** The diameters in inches that have a pipe allowance. */
  predicate Listed(d: nat)
  {
    d == 4 || d == 6 || d == 8 || d == 10 || d == 12
  }

  /**
   * The pipe length of an intermediate section of length `l` metres and
   * diameter `d` inches: the section less 0.13 (4"), 0.10 (6"), 0.19 (8") or
   * 0.20 (10", 12") metres; 0 for any other diameter.
   */
  function C3Qty(l: real, d: nat): (r: real)
    ensures Listed(d) ==> l - 0.20 <= r <= l - 0.10
    ensures !Listed(d) ==> r == 0.0
  {
    if d == 4 then l - 0.13
    else if d == 6 then l - 0.10
    else if d == 8 then l - 0.19
    else if d == 10 || d == 12 then l - 0.20
    else 0.0
  }

  /** The pipe length of a lead section that is not the 4" one: 0.10 off a 6" section, 0.16 off any other. */
  function LeadCut(l: real, d: nat): (r: real)
    ensures l - 0.16 <= r <= l - 0.10
  {
    if d == 6 then l - 0.10 else l - 0.16
  }

  /** The female coupling of diameter `dn` (the diameter's digits as written). */
  function Female(dn: string): Line
  {
    Line(dn + " \"Tremie Coupling - Female", 1.0)
  }

  /** The male coupling of diameter `dn`; its name ends in two spaces. */
  function Male(dn: string): Line
  {
    Line(dn + " \"Tremie Coupling - Male  ", 1.0)
  }

  /** The numbers the two sections read: the length in metres and the diameter's digits. */
  datatype Numbers = Numbers(length: real, digits: string)

  /** Both numbers, or `IndexError` when either text has no digits (the length is read first). */
  function Read(length: string, diameter: string): (r: Result<Numbers>)
    ensures r.Fail? <==> FirstNumber(length).None? || FirstNumber(diameter).None?
    ensures r.Fail? ==> r.error == IndexError
    ensures r.Ok? ==> AllDigits(r.value.digits) && |r.value.digits| >= 1
                      && FirstNumber(diameter) == Some(ParseNat(r.value.digits))
    ensures r.Ok? ==> r.value.length == Value(TokenDecimal(FirstNumberToken(length).value))
  {
    match FirstNumberToken(length)
    case None => Fail(IndexError)
    case Some(t) =>
      match FirstDigits(diameter)
      case None => Fail(IndexError)
      case Some(dn) => Ok(Numbers(Value(TokenDecimal(t)), dn))
  }

  /**
   * `_get_tp_intermediate`: the female and the male coupling, then the pipe
   * cut to `C3Qty`.
   */
  function Intermediate(length: string, diameter: string, size: string): (r: Result<seq<Line>>)
    ensures r.Fail? <==> Read(length, diameter).Fail?
    ensures r.Ok? ==> var n := Read(length, diameter).value;
                      r.value == [Female(n.digits), Male(n.digits), Line(size, C3Qty(n.length, ParseNat(n.digits)))]
  {
    match Read(length, diameter)
    case Fail(e) => Fail(e)
    case Ok(n) => Ok([Female(n.digits), Male(n.digits), Line(size, C3Qty(n.length, ParseNat(n.digits)))])
  }

  /**
   * `_get_tp_lead_section`: for the diameter written exactly `4" Diameter`, the
   * 4" female coupling, the 105mm CFA plug holder and the pipe 0.10 shorter
   * than the section; for any other, the female coupling and the pipe cut to
   * `LeadCut`.
   */
  function LeadSection(length: string, diameter: string, size: string): (r: Result<seq<Line>>)
    ensures r.Fail? <==> Read(length, diameter).Fail?
    ensures r.Ok? && diameter == FourInch ==>
      r.value == [Line("4\" Tremie Coupling - Female", 1.0), Line("105mm CFA Plug Holder", 1.0),
                  Line(size, Read(length, diameter).value.length - 0.10)]
    ensures r.Ok? && diameter != FourInch ==>
      var n := Read(length, diameter).value;
      r.value == [Female(n.digits), Line(size, LeadCut(n.length, ParseNat(n.digits)))]
  {
    match Read(length, diameter)
    case Fail(e) => Fail(e)
    case Ok(n) =>
      if diameter == FourInch then
        Ok([Line("4\" Tremie Coupling - Female", 1.0), Line("105mm CFA Plug Holder", 1.0), Line(size, n.length - 0.10)])
      else
        Ok([Female(n.digits), Line(size, LeadCut(n.length, ParseNat(n.digits)))])
  }

  /** `_get_tre_pipe_components`: by section type; no components for any other type. */
  function Components(a: Attrs): (r: Result<seq<Line>>)
    ensures a.kind != "Intermediate" && a.kind != "Lead Section" ==> r == Ok([])
    ensures r.Ok? && a.kind == "Intermediate" ==> |r.value| == 3 && r.value[2].name == a.size
    ensures r.Ok? && a.kind == "Lead Section" ==> 2 <= |r.value| <= 3 && r.value[|r.value| - 1].name == a.size
    ensures r.Fail? ==> r.error == IndexError
  {
    if a.kind == "Intermediate" then Intermediate(a.length, a.diameter, a.size)
    else if a.kind == "Lead Section" then LeadSection(a.length, a.diameter, a.size)
    else Ok([])
  }

  /** A section whose length and diameter are written as numbers reads exactly those numbers. */
  lemma ReadWritten(t: Token, unit: string, n: nat, tail: string)
    requires WellFormed(t) && (unit == [] || (!IsDigit(unit[0]) && unit[0] != '.'))
    requires tail == [] || !IsDigit(tail[0])
    ensures Read(TokenText(t) + unit, NatText(n) + tail) == Ok(Numbers(Value(TokenDecimal(t)), NatText(n)))
  {
    FirstNumberTokenAtStart(t, unit);
    DigitRunOf(NatText(n), tail);
  }

  /**
   * An intermediate section written as numbers: couplings named after the
   * diameter as written, and the pipe `C3Qty` of the section's length.
   */
  lemma IntermediateWritten(t: Token, unit: string, n: nat, tail: string, size: string)
    requires WellFormed(t) && (unit == [] || (!IsDigit(unit[0]) && unit[0] != '.'))
    requires tail == [] || !IsDigit(tail[0])
    ensures Intermediate(TokenText(t) + unit, NatText(n) + tail, size)
            == Ok([Female(NatText(n)), Male(NatText(n)), Line(size, C3Qty(Value(TokenDecimal(t)), n))])
  {
    ReadWritten(t, unit, n, tail);
    NatTextRoundTrip(n);
  }

  /** The diameter written `4" Diameter` reads as 4. */
  lemma FourInchReads()
    ensures FirstDigits(FourInch) == Some("4") && ParseNat("4") == 4
  {
    assert FourInch[0] == '4' && IsDigit(FourInch[0]) && !IsDigit(FourInch[1]);
    assert FirstDigits(FourInch) == Some(DigitRun(FourInch));
    assert DigitRun(FourInch) == "4";
  }

  /** A 6" pipe is cut 0.10 short in both kinds of section. */
  lemma SixInchSameCut(length: string, diameter: string, size: string)
    requires Read(length, diameter).Ok? && ParseNat(Read(length, diameter).value.digits) == 6
    ensures diameter != FourInch
    ensures Intermediate(length, diameter, size).value[2] == LeadSection(length, diameter, size).value[1]
  {
    FourInchReads();
  }

  /**
   * The 4" lead section keeps 0.03m more pipe than a 4" intermediate
   * section of the same length.
   */
  lemma FourInchLeadLonger(length: string, size: string)
    requires FirstNumber(length).Some?
    ensures Intermediate(length, FourInch, size).Ok? && LeadSection(length, FourInch, size).Ok?
    ensures LeadSection(length, FourInch, size).value[2].qty == Intermediate(length, FourInch, size).value[2].qty + 0.03
  {
    FourInchReads();
  }
}
