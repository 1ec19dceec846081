/**
 * Candidate BOM lines and the comprehension filters that drop placeholders.
 *
 * Every builder first assembles an ordered list of `(component name, qty)`
 * pairs in which a missing component is the placeholder `(None, 0)` or
 * `("", 0)`, then keeps only the lines a filter accepts. Two filters occur:
 * `[r for r in lst if r[0]]` keeps named lines; `[c for c in lst if c[0] and c[1]]`
 * keeps named lines with a non-zero quantity.
 */
module Bom {
  import opened BomWrappers

  /** A `(component name, quantity)` pair; the name "" stands for `None` too. */
  datatype Line = Line(name: string, qty: real)

  /** The `(None, 0)` placeholder. */
  const NoLine := Line("", 0.0)

  /** `r[0]` is truthy. */
  predicate Named(l: Line) { l.name != "" }

  /** `c[0] and c[1]` are truthy. */
  predicate Counted(l: Line) { l.name != "" && l.qty != 0.0 }

  /** The lines of `s` that `keep` accepts, in their original order. */
  function Keep(s: seq<Line>, keep: Line -> bool): (r: seq<Line>)
    ensures |r| <= |s|
    ensures forall l :: l in r ==> l in s && keep(l)
    ensures forall l :: l in s && keep(l) ==> l in r
  {
    if s == [] then []
    else (if keep(s[0]) then [s[0]] else []) + Keep(s[1..], keep)
  }

  /** `[r for r in lst if r[0]]` */
  function KeepNamed(s: seq<Line>): (r: seq<Line>)
    ensures forall l :: l in r ==> l in s && Named(l)
    ensures forall l :: l in s && Named(l) ==> l in r
  {
    Keep(s, Named)
  }

  /** `[c for c in lst if c[0] and c[1]]` */
  function KeepCounted(s: seq<Line>): (r: seq<Line>)
    ensures forall l :: l in r ==> l in s && Counted(l)
    ensures forall l :: l in s && Counted(l) ==> l in r
  {
    Keep(s, Counted)
  }

  /** Filtering a concatenation filters each part and keeps their order. */
  lemma {:induction false} KeepAppend(a: seq<Line>, b: seq<Line>, keep: Line -> bool)
    ensures Keep(a + b, keep) == Keep(a, keep) + Keep(b, keep)
  {
    if a == [] {
      assert a + b == b;
    } else {
      assert (a + b)[1..] == a[1..] + b;
      KeepAppend(a[1..], b, keep);
    }
  }

  /** Filtering twice is filtering once. */
  lemma {:induction false} KeepIdempotent(s: seq<Line>, keep: Line -> bool)
    ensures Keep(Keep(s, keep), keep) == Keep(s, keep)
  {
    if s != [] {
      var head := if keep(s[0]) then [s[0]] else [];
      KeepAppend(head, Keep(s[1..], keep), keep);
      KeepIdempotent(s[1..], keep);
      assert Keep(head, keep) == head by {
        if keep(s[0]) { assert head[1..] == []; }
      }
    }
  }

  /** A list whose lines all pass the filter is left unchanged. */
  lemma {:induction false} KeepAllPass(s: seq<Line>, keep: Line -> bool)
    requires forall l :: l in s ==> keep(l)
    ensures Keep(s, keep) == s
  {
    if s != [] {
      KeepAllPass(s[1..], keep);
    }
  }

  /** The placeholder never survives either filter. */
  lemma PlaceholderDropped(s: seq<Line>)
    ensures NoLine !in KeepNamed(s) && NoLine !in KeepCounted(s)
  {
  }

  /** The named filter accepts everything the counted filter does. */
  lemma {:induction false} CountedWithinNamed(s: seq<Line>)
    ensures KeepNamed(KeepCounted(s)) == KeepCounted(s)
    ensures KeepCounted(KeepNamed(s)) == KeepCounted(s)
  {
    KeepAllPass(KeepCounted(s), Named);
    KeepNamedThenCounted(s);
  }

  lemma {:induction false} KeepNamedThenCounted(s: seq<Line>)
    ensures Keep(Keep(s, Named), Counted) == Keep(s, Counted)
  {
    if s != [] {
      var head := if Named(s[0]) then [s[0]] else [];
      KeepAppend(head, Keep(s[1..], Named), Counted);
      KeepNamedThenCounted(s[1..]);
      if Named(s[0]) {
        assert Keep(head, Counted) == (if Counted(s[0]) then [s[0]] else []) by {
          assert head[1..] == [];
        }
      }
    }
  }

  /**
   * An element of a bored-pile builder's candidate list. Besides pairs and
   * `None`, a list extended with a bare tuple holds that tuple's string and
   * number as elements of their own.
   */
  datatype Item = Pair(line: Line) | Text(text: string) | Number(n: real) | Absent

  /** The items that are pairs of the given lines. */
  function Pairs(s: seq<Line>): (r: seq<Item>)
    ensures |r| == |s| && forall i :: 0 <= i < |s| ==> r[i] == Pair(s[i])
  {
    if s == [] then [] else [Pair(s[0])] + Pairs(s[1..])
  }

  /**
   * `c and len(c) >= 2 and c[0] and c[1]` on one item: a pair passes when it
   * is counted, a string when it has two characters (both then truthy), `None`
   * and `0` never; `len` of a non-zero number raises `TypeError`.
   */
  function Passes(c: Item): Result<bool>
  {
    match c
    case Pair(l) => Ok(Counted(l))
    case Text(t) => Ok(|t| >= 2)
    case Number(n) => if n == 0.0 then Ok(false) else Fail(TypeError)
    case Absent => Ok(false)
  }

  predicate Raises(c: Item) { c.Number? && c.n != 0.0 }

  /** `[c for c in components if c and len(c) >= 2 and c[0] and c[1]]` */
  function KeepComponents(s: seq<Item>): (r: Result<seq<Item>>)
    ensures r.Fail? <==> exists i :: 0 <= i < |s| && Raises(s[i])
    ensures r.Fail? ==> r.error == TypeError
    ensures r.Ok? ==> |r.value| <= |s|
    ensures r.Ok? ==> forall c :: c in r.value ==> c in s && Passes(c) == Ok(true)
    ensures r.Ok? ==> forall c :: c in s && Passes(c) == Ok(true) ==> c in r.value
  {
    if s == [] then Ok([])
    else
      match Passes(s[0])
      case Fail(e) => Fail(e)
      case Ok(b) =>
        match KeepComponents(s[1..])
        case Fail(e) =>
          assert exists i :: 0 <= i < |s[1..]| && Raises(s[1..][i]);
          var i :| 0 <= i < |s[1..]| && Raises(s[1..][i]);
          assert Raises(s[i + 1]);
          Fail(e)
        case Ok(rest) =>
          assert forall i :: 1 <= i < |s| ==> s[i] == s[1..][i - 1];
          Ok((if b then [s[0]] else []) + rest)
  }

  /** On a list of pairs only, the filter never raises and keeps the counted lines. */
  lemma {:induction false} KeepComponentsOfPairs(s: seq<Line>)
    ensures KeepComponents(Pairs(s)) == Ok(Pairs(KeepCounted(s)))
  {
    if s != [] {
      assert Pairs(s)[1..] == Pairs(s[1..]);
      KeepComponentsOfPairs(s[1..]);
      var head := if Counted(s[0]) then [s[0]] else [];
      assert Pairs(head + Keep(s[1..], Counted)) == Pairs(head) + Pairs(Keep(s[1..], Counted));
      assert KeepCounted(s) == head + Keep(s[1..], Counted);
    }
  }

  /** Filtering the filtered list again changes nothing. */
  lemma {:induction false} KeepComponentsIdempotent(s: seq<Item>)
    requires KeepComponents(s).Ok?
    ensures KeepComponents(KeepComponents(s).value) == KeepComponents(s)
  {
    if s != [] {
      var rest := KeepComponents(s[1..]).value;
      KeepComponentsIdempotent(s[1..]);
      assert Passes(s[0]).Ok?;
      if Passes(s[0]) == Ok(true) {
        var r := [s[0]] + rest;
        assert KeepComponents(s) == Ok(r);
        assert r[0] == s[0] && r[1..] == rest;
      } else {
        assert [] + rest == rest;
        assert KeepComponents(s) == Ok(rest);
      }
    }
  }

  /** Pairing a concatenation pairs each part. */
  lemma PairsAppend(a: seq<Line>, b: seq<Line>)
    ensures Pairs(a + b) == Pairs(a) + Pairs(b)
  {
    var whole, parts := Pairs(a + b), Pairs(a) + Pairs(b);
    forall i | 0 <= i < |a + b|
      ensures whole[i] == parts[i]
    {
      if i < |a| {
        assert (a + b)[i] == a[i];
      } else {
        assert (a + b)[i] == b[i - |a|];
      }
    }
  }

  /** A list of counted pairs passes the filter unchanged. */
  lemma {:induction false} KeepComponentsAllPass(s: seq<Item>)
    requires forall c :: c in s ==> c.Pair? && Counted(c.line)
    ensures KeepComponents(s) == Ok(s)
  {
    if s != [] {
      assert forall c :: c in s[1..] ==> c in s;
      KeepComponentsAllPass(s[1..]);
      assert [s[0]] + s[1..] == s;
    }
  }

  /** A counted line of the candidates is among the filtered pairs. */
  lemma CountedSurvives(lines: seq<Line>, l: Line)
    requires l in lines && Counted(l)
    ensures Pair(l) in Pairs(KeepCounted(lines))
  {
    var k := KeepCounted(lines);
    var i :| 0 <= i < |k| && k[i] == l;
    assert Pairs(k)[i] == Pair(l);
  }

  /** The filtered pairs are all counted lines. */
  lemma SurvivorsCounted(lines: seq<Line>)
    ensures forall c :: c in Pairs(KeepCounted(lines)) ==> c.Pair? && Counted(c.line)
  {
    var k := KeepCounted(lines);
    forall c | c in Pairs(k)
      ensures c.Pair? && Counted(c.line)
    {
      var i :| 0 <= i < |Pairs(k)| && Pairs(k)[i] == c;
      assert k[i] in k;
    }
  }

  /** `(name, qty) if name else None` */
  function Opt(name: string, qty: real): (r: Option<Line>)
    ensures r.Some? <==> name != ""
    ensures r.Some? ==> r.value == Line(name, qty) && Named(r.value)
  {
    if name != "" then Some(Line(name, qty)) else None
  }

  /**
   * `[c for c in lst if c]` over pairs and `None`: a pair is a non-empty
   * tuple and so always truthy, whatever its quantity; only `None` is dropped.
   */
  function Present(s: seq<Option<Line>>): (r: seq<Line>)
    ensures |r| <= |s|
    ensures forall l :: l in r <==> Some(l) in s
  {
    if s == [] then []
    else
      var rest := Present(s[1..]);
      assert forall o :: o in s[1..] ==> o in s;
      assert forall o :: o in s ==> o == s[0] || o in s[1..];
      (if s[0].Some? then [s[0].value] else []) + rest
  }

  /** Dropping `None` from a concatenation drops it from each part, keeping their order. */
  lemma {:induction false} PresentAppend(a: seq<Option<Line>>, b: seq<Option<Line>>)
    ensures Present(a + b) == Present(a) + Present(b)
  {
    if a == [] {
      assert a + b == b;
    } else {
      assert (a + b)[1..] == a[1..] + b;
      PresentAppend(a[1..], b);
    }
  }

  /** A present first candidate is the first line kept. */
  lemma PresentFirst(a: Option<Line>, b: seq<Option<Line>>)
    requires a.Some?
    ensures Present([a] + b) == [a.value] + Present(b)
  {
    assert ([a] + b)[1..] == b;
  }
}
