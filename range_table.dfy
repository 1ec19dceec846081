/**
 * Diameter-bucket tables and the resolver `_get_range_per_diameter`.
 *
 * A table maps half-open diameter ranges `[lo, hi)` to a value, in the
 * insertion order of the Python dict literal. The resolver walks the entries
 * in order and keeps the narrowest range containing the diameter (a later
 * range replaces the kept one only when strictly narrower). Independently of
 * containment, an entry whose key is exactly `(0, 2500)` is taken
 * unconditionally when the diameter is 2500 or more.
 */
module RangeTable {
  import opened BomWrappers

  datatype Span = Span(lo: int, hi: int)

  /** The catch-all key `(0, 2500)` that large diameters fall back to. */
  const Wide := Span(0, 2500)

  predicate Contains(k: Span, d: int) { k.lo <= d < k.hi }

  function Width(k: Span): int { k.hi - k.lo }

  /** No range of `t` is the `(0, 2500)` range that the resolver reads as "any diameter". */
  predicate NoWide<T>(t: seq<(Span, T)>)
  {
    forall j :: 0 <= j < |t| ==> t[j].0 != Wide
  }

  /** Whether the `(0, 2500)` rule fires on entry `e` for diameter `d`. */
  predicate Overrides<T>(e: (Span, T), d: int) { d >= 2500 && e.0 == Wide }

  /** One iteration of the resolver's loop: the kept entry after looking at `e`. */
  function Step<T>(kept: Option<(Span, T)>, e: (Span, T), d: int): Option<(Span, T)>
  {
    if Overrides(e, d) then Some(e)
    else if Contains(e.0, d) && (kept.None? || Width(e.0) < Width(kept.value.0)) then Some(e)
    else kept
  }

  /** The kept entry after the first `n` entries. */
  function Scan<T>(t: seq<(Span, T)>, d: int, n: nat): Option<(Span, T)>
    requires n <= |t|
  {
    if n == 0 then None else Step(Scan(t, d, n - 1), t[n - 1], d)
  }

  /** The resolver's answer: the value of the kept entry, or `None`. */
  function Select<T>(t: seq<(Span, T)>, d: int): Option<T>
  {
    match Scan(t, d, |t|)
    case None => None
    case Some(e) => Some(e.1)
  }

  /** `_get_range_per_diameter` (product_product.py, bom_automation_v2.py). */
  method Resolve<T>(t: seq<(Span, T)>, d: int) returns (r: Option<T>)
    ensures r == Select(t, d)
  {
    var kept: Option<(Span, T)> := None;
    var i := 0;
    while i < |t|
      invariant 0 <= i <= |t|
      invariant kept == Scan(t, d, i)
    {
      var e := t[i];
      if Contains(e.0, d) {
        if kept.None? || Width(e.0) < Width(kept.value.0) {
          kept := Some(e);
        }
      }
      if d >= 2500 && e.0 == Wide {
        kept := Some(e);
      }
      i := i + 1;
    }
    r := if kept.None? then None else Some(kept.value.1);
  }

  /** No entry in `t[lo..hi]` contains `d`. */
  ghost predicate NoneContain<T>(t: seq<(Span, T)>, d: int, lo: nat, hi: nat)
    requires lo <= hi <= |t|
  {
    forall j :: lo <= j < hi ==> !Contains(t[j].0, d)
  }

  /** No entry in `t[lo..hi]` triggers the `(0, 2500)` rule. */
  ghost predicate NoOverride<T>(t: seq<(Span, T)>, d: int, lo: nat, hi: nat)
    requires lo <= hi <= |t|
  {
    forall j :: lo <= j < hi ==> !Overrides(t[j], d)
  }

  /**
   * Entry `i` is the first of the narrowest entries of `t[lo..hi]` that
   * contain `d`.
   */
  ghost predicate FirstNarrowest<T>(t: seq<(Span, T)>, d: int, lo: nat, hi: nat, i: nat)
    requires lo <= hi <= |t|
  {
    lo <= i < hi && Contains(t[i].0, d)
    && (forall j :: lo <= j < hi && Contains(t[j].0, d) ==> Width(t[i].0) <= Width(t[j].0))
    && (forall j :: lo <= j < i && Contains(t[j].0, d) ==> Width(t[i].0) < Width(t[j].0))
  }

  /** A range of entries either has no entry containing `d` or a first narrowest one. */
  lemma {:induction false} NarrowestExists<T>(t: seq<(Span, T)>, d: int, lo: nat, hi: nat)
    requires lo <= hi <= |t|
    ensures NoneContain(t, d, lo, hi) || exists i: nat :: FirstNarrowest(t, d, lo, hi, i)
  {
    if hi > lo {
      NarrowestExists(t, d, lo, hi - 1);
      var k := hi - 1;
      if NoneContain(t, d, lo, hi - 1) {
        if Contains(t[k].0, d) {
          assert FirstNarrowest(t, d, lo, hi, k);
        }
      } else {
        var i: nat :| FirstNarrowest(t, d, lo, hi - 1, i);
        if Contains(t[k].0, d) && Width(t[k].0) < Width(t[i].0) {
          assert FirstNarrowest(t, d, lo, hi, k);
        } else {
          assert FirstNarrowest(t, d, lo, hi, i);
        }
      }
    }
  }

  /** Without an entry containing `d` or the `(0, 2500)` rule, scanning on keeps what was kept. */
  lemma {:induction false} ScanOnNone<T>(t: seq<(Span, T)>, d: int, s: nat, n: nat)
    requires s <= n <= |t|
    requires NoOverride(t, d, s, n) && NoneContain(t, d, s, n)
    ensures Scan(t, d, n) == Scan(t, d, s)
  {
    if n > s {
      ScanOnNone(t, d, s, n - 1);
    }
  }

  /**
   * Without the `(0, 2500)` rule in `t[s..n]`, scanning on from `s` keeps the
   * entry kept at `s` unless the first narrowest entry `i` of `t[s..n]` is
   * strictly narrower; then `i` is kept.
   */
  lemma {:induction false} ScanOn<T>(t: seq<(Span, T)>, d: int, s: nat, n: nat, i: nat)
    requires s <= n <= |t|
    requires NoOverride(t, d, s, n)
    requires FirstNarrowest(t, d, s, n, i)
    ensures Scan(t, d, n) == (if Scan(t, d, s).Some? && Width(Scan(t, d, s).value.0) <= Width(t[i].0)
                              then Scan(t, d, s) else Some(t[i]))
  {
    var k := n - 1;
    assert !Overrides(t[k], d);
    if i == k {
      NarrowestExists(t, d, s, k);
      if NoneContain(t, d, s, k) {
        ScanOnNone(t, d, s, k);
      } else {
        var p: nat :| FirstNarrowest(t, d, s, k, p);
        assert Width(t[k].0) < Width(t[p].0);
        ScanOn(t, d, s, k, p);
      }
    } else {
      assert FirstNarrowest(t, d, s, k, i);
      ScanOn(t, d, s, k, i);
    }
  }

  /**
   * When the `(0, 2500)` rule cannot fire (the diameter is below 2500 or the
   * table has no such key), the resolver returns `None` exactly when no range
   * contains the diameter, and otherwise the value of the first of the
   * narrowest containing ranges.
   */
  lemma SelectNarrowest<T>(t: seq<(Span, T)>, d: int)
    requires d < 2500 || NoWide(t)
    ensures Select(t, d).None? <==> NoneContain(t, d, 0, |t|)
    ensures forall i: nat :: FirstNarrowest(t, d, 0, |t|, i) ==> Select(t, d) == Some(t[i].1)
  {
    NarrowestExists(t, d, 0, |t|);
    if NoneContain(t, d, 0, |t|) {
      ScanOnNone(t, d, 0, |t|);
    }
    forall i: nat | FirstNarrowest(t, d, 0, |t|, i)
      ensures Select(t, d) == Some(t[i].1)
    {
      ScanOn(t, d, 0, |t|, i);
    }
  }

  /**
   * When the diameter is at least 2500 and the table has the key `(0, 2500)`,
   * the resolver returns the value of that entry unless a range after it
   * contains the diameter and is narrower than 2500; then it returns the
   * first of the narrowest such ranges. It never returns `None`.
   */
  lemma SelectWide<T>(t: seq<(Span, T)>, d: int, w: nat)
    requires DistinctKeys(t)
    requires d >= 2500 && w < |t| && t[w].0 == Wide
    ensures Select(t, d).Some?
    ensures NoneContain(t, d, w + 1, |t|) ==> Select(t, d) == Some(t[w].1)
    ensures forall i: nat :: FirstNarrowest(t, d, w + 1, |t|, i) ==>
      Select(t, d) == (if Width(t[i].0) < 2500 then Some(t[i].1) else Some(t[w].1))
  {
    assert Scan(t, d, w + 1) == Some(t[w]);
    assert NoOverride(t, d, w + 1, |t|);
    NarrowestExists(t, d, w + 1, |t|);
    if NoneContain(t, d, w + 1, |t|) {
      ScanOnNone(t, d, w + 1, |t|);
    } else {
      var p: nat :| FirstNarrowest(t, d, w + 1, |t|, p);
      ScanOn(t, d, w + 1, |t|, p);
    }
    forall i: nat | FirstNarrowest(t, d, w + 1, |t|, i)
      ensures Select(t, d) == (if Width(t[i].0) < 2500 then Some(t[i].1) else Some(t[w].1))
    {
      ScanOn(t, d, w + 1, |t|, i);
    }
  }

  /**
   * The ranges of `t`, in order, cover `[lo, hi)` end to start: each starts
   * where the previous one ends, none is empty and the last ends at `hi`.
   */
  predicate Tiles<T>(t: seq<(Span, T)>, lo: int, hi: int)
    decreases |t|
  {
    if t == [] then lo == hi
    else t[0].0.lo == lo && t[0].0.lo < t[0].0.hi && Tiles(t[1..], t[0].0.hi, hi)
  }

  /** Tiling ranges lie inside `[lo, hi)` and never overlap. */
  lemma {:induction false} TilesBounds<T>(t: seq<(Span, T)>, lo: int, hi: int)
    requires Tiles(t, lo, hi)
    ensures lo <= hi
    ensures forall j :: 0 <= j < |t| ==> lo <= t[j].0.lo && t[j].0.hi <= hi
    ensures forall i, j :: 0 <= i < j < |t| ==> t[i].0.hi <= t[j].0.lo
  {
    if t != [] {
      var rest := t[1..];
      TilesBounds(rest, t[0].0.hi, hi);
      assert forall j :: 1 <= j < |t| ==> t[j] == rest[j - 1];
    }
  }

  /** Every diameter in `[lo, hi)` lies in one of the tiling ranges. */
  lemma {:induction false} TilesContain<T>(t: seq<(Span, T)>, lo: int, hi: int, d: int)
    requires Tiles(t, lo, hi) && lo <= d < hi
    ensures exists j :: 0 <= j < |t| && Contains(t[j].0, d)
  {
    if d < t[0].0.hi {
      assert Contains(t[0].0, d);
    } else {
      TilesContain(t[1..], t[0].0.hi, hi, d);
      var j :| 0 <= j < |t[1..]| && Contains(t[1..][j].0, d);
      assert t[1..][j] == t[j + 1];
    }
  }

  /**
   * On a table whose ranges tile `[lo, hi)` and which the `(0, 2500)` rule
   * cannot reach, the resolver answers exactly for the diameters in
   * `[lo, hi)`, with the value of the one range that contains the diameter.
   */
  lemma SelectTiled<T>(t: seq<(Span, T)>, lo: int, hi: int, d: int)
    requires Tiles(t, lo, hi)
    requires d < 2500 || NoWide(t)
    ensures Select(t, d).Some? <==> lo <= d < hi
    ensures forall j :: 0 <= j < |t| && Contains(t[j].0, d) ==> Select(t, d) == Some(t[j].1)
  {
    TilesBounds(t, lo, hi);
    SelectNarrowest(t, d);
    if lo <= d < hi {
      TilesContain(t, lo, hi, d);
    }
    forall j | 0 <= j < |t| && Contains(t[j].0, d)
      ensures Select(t, d) == Some(t[j].1)
    {
      assert FirstNarrowest(t, d, 0, |t|, j);
    }
  }

  /** The first range of `t` is `[lo, gapLo)` and the others tile `[gapHi, hi)`. */
  predicate TilesAround<T>(t: seq<(Span, T)>, lo: int, gapLo: int, gapHi: int, hi: int)
  {
    |t| >= 1 && t[0].0 == Span(lo, gapLo) && lo < gapLo && Tiles(t[1..], gapHi, hi)
  }

  /**
   * On a table that tiles `[lo, gapLo)` and `[gapHi, hi)` and which the
   * `(0, 2500)` rule cannot reach, the resolver answers exactly for the
   * diameters in those ranges, nothing in the gap.
   */
  lemma SelectAround<T>(t: seq<(Span, T)>, lo: int, gapLo: int, gapHi: int, hi: int, d: int)
    requires TilesAround(t, lo, gapLo, gapHi, hi) && gapLo <= gapHi
    requires d < 2500 || NoWide(t)
    ensures Select(t, d).Some? <==> (lo <= d < gapLo || gapHi <= d < hi)
  {
    TilesBounds(t[1..], gapHi, hi);
    assert forall j :: 1 <= j < |t| ==> t[j] == t[1..][j - 1];
    SelectNarrowest(t, d);
    if lo <= d < gapLo {
      assert Contains(t[0].0, d);
    } else if gapHi <= d < hi {
      TilesContain(t[1..], gapHi, hi, d);
      var j :| 0 <= j < |t[1..]| && Contains(t[1..][j].0, d);
      assert Contains(t[j + 1].0, d);
    }
  }
}
