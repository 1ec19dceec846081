/**
 * The regular-expression searches the rules apply to attribute values and to
 * the names they build, as Python's `re.search` performs them (leftmost
 * match, greedy digit runs):
 *
 *   `\d+`               FirstNumber
 *   `P(\d+)`, `OD(\d+)`  SearchNumber(s, "P"), SearchNumber(s, "OD")
 *   `R(\d+\.\d+)`       SearchDecimal(s, "R")
 *   `-\s*(\d+)`         SearchDashNumber
 *   `\d+\.\d+|\d+`       FirstNumberToken (the first of `re.findall`)
 *   `\d+\.?\d*`          PointAfterFirstNumber (whether the match holds a point)
 *   `(\d+)mm`           SearchNumberBefore(s, "mm")
 *   `(\d{2,3})mm`       SearchMmDigits
 *   `^\s*(\d+(?:\.\d+)?)`  LeadingNumber (with `re.match`)
 *   `to\s+(.+?)\s+Drive`  SearchBetween(s, "to", "Drive")
 */
module PyRegex {
  import opened BomWrappers
  import opened PyText

  /** The longest run of digits at the start of `s`. */
  function DigitRun(s: string): (r: string)
    ensures |r| <= |s| && r == s[..|r|] && AllDigits(r)
    ensures |r| == |s| || !IsDigit(s[|r|])
  {
    if s == [] || !IsDigit(s[0]) then []
    else [s[0]] + DigitRun(s[1..])
  }

  /** The digits of a number followed by a non-digit are read as exactly that run. */
  lemma {:induction false} DigitRunOf(digits: string, rest: string)
    requires AllDigits(digits)
    requires rest == [] || !IsDigit(rest[0])
    ensures DigitRun(digits + rest) == digits
  {
    if digits != [] {
      assert (digits + rest)[1..] == digits[1..] + rest;
      DigitRunOf(digits[1..], rest);
    } else {
      assert digits + rest == rest;
    }
  }

  /** `re.search(r'\d+', s)`: the leftmost run of digits, as a number. */
  function FirstNumber(s: string): (r: Option<nat>)
    ensures r.None? <==> forall i :: 0 <= i < |s| ==> !IsDigit(s[i])
  {
    if s == [] then None
    else if IsDigit(s[0]) then Some(ParseNat(DigitRun(s)))
    else
      var r := FirstNumber(s[1..]);
      assert forall i :: 1 <= i < |s| ==> s[i] == s[1..][i - 1];
      r
  }

  /** `re.findall(r'\d+', s)[0]` when there is a match: the text of the leftmost run of digits. */
  function FirstDigits(s: string): (r: Option<string>)
    ensures r.None? <==> FirstNumber(s).None?
    ensures r.Some? ==> |r.value| >= 1 && AllDigits(r.value) && FirstNumber(s) == Some(ParseNat(r.value))
  {
    if s == [] then None
    else if IsDigit(s[0]) then Some(DigitRun(s))
    else FirstDigits(s[1..])
  }

  /** A match of `prefix(\d+)` starts at the start of `s`. */
  predicate NumberAt(s: string, prefix: string)
  {
    |prefix| < |s| && s[..|prefix|] == prefix && IsDigit(s[|prefix|])
  }

  /** `re.search(prefix + r'(\d+)', s)`: the digits after the leftmost such match. */
  function SearchNumber(s: string, prefix: string): (r: Option<nat>)
    ensures r.None? <==> forall i :: 0 <= i < |s| ==> !NumberAt(s[i..], prefix)
  {
    if s == [] then None
    else if NumberAt(s, prefix) then
      assert s[0..] == s;
      Some(ParseNat(DigitRun(s[|prefix|..])))
    else
      var r := SearchNumber(s[1..], prefix);
      assert forall i :: 1 <= i < |s| ==> s[i..] == s[1..][i - 1..];
      assert s[0..] == s;
      r
  }

  /** A match of `prefix(\d+\.\d+)` starts at the start of `s`. */
  predicate DecimalAt(s: string, prefix: string)
  {
    NumberAt(s, prefix)
    && var rest := s[|prefix|..];
       var whole := DigitRun(rest);
       |whole| + 1 < |rest| && rest[|whole|] == '.' && IsDigit(rest[|whole| + 1])
  }

  /** The decimal token of a match that starts at the start of `s`. */
  function DecimalToken(s: string, prefix: string): (t: Token)
    requires DecimalAt(s, prefix)
    ensures WellFormed(t) && t.frac != ""
  {
    var rest := s[|prefix|..];
    var whole := DigitRun(rest);
    Token(whole, DigitRun(rest[|whole| + 1..]))
  }

  /**
   * `re.search(prefix + r'(\d+\.\d+)', s)`: the token after the leftmost
   * such match. A digit run cannot end anywhere but at its last digit and
   * still be followed by the point, so greedy matching finds the match at a
   * position exactly when the full run there is followed by a point and a digit.
   */
  function SearchDecimal(s: string, prefix: string): (r: Option<Token>)
    ensures r.Some? ==> WellFormed(r.value) && r.value.frac != ""
  {
    if s == [] then None
    else if DecimalAt(s, prefix) then Some(DecimalToken(s, prefix))
    else SearchDecimal(s[1..], prefix)
  }

  /** A match of `(\d+)suffix` starts at the start of `s`: its run of digits is followed by `suffix`. */
  predicate NumberBeforeAt(s: string, suffix: string)
  {
    var run := DigitRun(s);
    run != [] && |run| + |suffix| <= |s| && s[|run|..|run| + |suffix|] == suffix
  }

  /**
   * `re.search(r'(\d+)' + suffix, s)` for a suffix that starts with a
   * non-digit: a shorter run than the greedy one is followed by a digit, so
   * a position matches exactly when its full run of digits is followed by
   * the suffix.
   */
  function SearchNumberBefore(s: string, suffix: string): (r: Option<nat>)
    requires suffix != [] && !IsDigit(suffix[0])
    ensures r.None? <==> forall i :: 0 <= i < |s| ==> !NumberBeforeAt(s[i..], suffix)
    ensures r.Some? ==> exists i :: 0 <= i < |s| && NumberBeforeAt(s[i..], suffix) && r.value == ParseNat(DigitRun(s[i..]))
  {
    if s == [] then None
    else if NumberBeforeAt(s, suffix) then
      assert s[0..] == s;
      Some(ParseNat(DigitRun(s)))
    else
      var r := SearchNumberBefore(s[1..], suffix);
      assert forall i :: 1 <= i < |s| ==> s[i..] == s[1..][i - 1..];
      assert s[0..] == s;
      r
  }

  /** `_get_mm_number`: the number before the leftmost "mm", 0 without one. */
  function MmNumber(s: string): (r: nat)
    ensures SearchNumberBefore(s, "mm").None? ==> r == 0
    ensures SearchNumberBefore(s, "mm").Some? ==> r == SearchNumberBefore(s, "mm").value
  {
    match SearchNumberBefore(s, "mm")
    case Some(n) => n
    case None => 0
  }

  /** `(\d{2,3})mm` at the start of `s`: three digits when they are followed by "mm", else two. */
  function MmDigitsAt(s: string): (r: Option<string>)
    ensures r.Some? ==> 2 <= |r.value| <= 3 && AllDigits(r.value) && |r.value| + 2 <= |s|
    ensures r.Some? ==> s[..|r.value|] == r.value && s[|r.value|..|r.value| + 2] == "mm"
  {
    if |s| >= 5 && AllDigits(s[..3]) && s[3..5] == "mm" then Some(s[..3])
    else if |s| >= 4 && AllDigits(s[..2]) && s[2..4] == "mm" then Some(s[..2])
    else None
  }

  /** `re.search(r'(\d{2,3})mm', s).group(1)`: the digits of the leftmost match. */
  function SearchMmDigits(s: string): (r: Option<string>)
    ensures r.None? <==> forall i :: 0 <= i < |s| ==> MmDigitsAt(s[i..]).None?
    ensures r.Some? ==> 2 <= |r.value| <= 3 && AllDigits(r.value)
  {
    if s == [] then None
    else if MmDigitsAt(s).Some? then
      assert s[0..] == s;
      MmDigitsAt(s)
    else
      var r := SearchMmDigits(s[1..]);
      assert forall i :: 1 <= i < |s| ==> s[i..] == s[1..][i - 1..];
      assert s[0..] == s;
      r
  }

  /**
   * `re.match(r'^\s*(\d+(?:\.\d+)?)', s).group(1)`: the number after the
   * leading whitespace, with its fraction when a point and a digit follow.
   */
  function LeadingNumber(s: string): (r: Option<Token>)
    ensures r.None? <==> DigitRun(StripStart(s)) == []
    ensures r.Some? ==> WellFormed(r.value) && r.value.whole == DigitRun(StripStart(s))
  {
    var t := StripStart(s);
    var w := DigitRun(t);
    if w == [] then None
    else
      var rest := t[|w|..];
      if |rest| >= 2 && rest[0] == '.' && IsDigit(rest[1]) then Some(Token(w, DigitRun(rest[1..])))
      else Some(Token(w, ""))
  }

  /** A number written at the very start is read whole, without a fraction when no point and digit follow. */
  lemma LeadingWhole(n: nat, rest: string)
    requires rest == [] || (!IsDigit(rest[0]) && rest[0] != '.')
    ensures LeadingNumber(NatText(n) + rest) == Some(Token(NatText(n), ""))
  {
    var s := NatText(n) + rest;
    StripStartKeeps(s);
    DigitRunOf(NatText(n), rest);
    assert s[|NatText(n)|..] == rest;
  }

  /** A decimal written at the very start is read with its fraction. */
  lemma LeadingDecimal(n: nat, frac: string, rest: string)
    requires frac != [] && AllDigits(frac)
    ensures LeadingNumber(NatText(n) + "." + frac + rest).Some?
    ensures LeadingNumber(NatText(n) + "." + frac + rest).value.frac != ""
  {
    var s := NatText(n) + "." + frac + rest;
    StripStartKeeps(s);
    assert s == NatText(n) + ("." + frac + rest);
    DigitRunOf(NatText(n), "." + frac + rest);
    var t := s[|NatText(n)|..];
    assert t == "." + frac + rest;
    assert t[1] == frac[0];
  }

  /** A string that does not start with whitespace is left as it is by `lstrip`. */
  lemma StripStartKeeps(s: string)
    requires s != [] && !IsSpace(s[0])
    ensures StripStart(s) == s
  {
  }

  /** `\s+word` matches at the start of `s`. */
  predicate SpacesThen(s: string, word: string)
  {
    s != [] && IsSpace(s[0]) && var t := StripStart(s); |word| <= |t| && t[..|word|] == word
  }

  /** `\s+word` matches at index `m` of `s`. */
  predicate EndsAt(s: string, word: string, m: nat)
    requires m <= |s|
  {
    SpacesThen(s[m..], word)
  }

  /**
   * The lazy group `(.+?)` followed by `\s+word` at the start of `s`, its
   * length tried from `n` up: the shortest prefix of at least `n` characters
   * without a line break that `\s+word` follows.
   */
  function LazyBefore(s: string, word: string, n: nat): (r: Option<string>)
    requires 1 <= n <= |s|
    ensures r.Some? ==> n <= |r.value| <= |s| && r.value == s[..|r.value|]
    ensures r.Some? ==> EndsAt(s, word, |r.value|) && '\n' !in r.value
    decreases |s| - n
  {
    if '\n' in s[..n] then None
    else if EndsAt(s, word, n) then Some(s[..n])
    else if n == |s| then None
    else
      var r := LazyBefore(s, word, n + 1);
      assert r.Some? ==> s[..n] <= r.value;
      r
  }

  /**
   * `\s+(.+?)\s+after` at the start of `u` with the first `\s+` taking `k`
   * characters, then, when that fails, fewer: the greedy run is tried first
   * and given back one character at a time.
   */
  function Backtrack(u: string, after: string, k: nat): (r: Option<string>)
    requires k <= |u|
    ensures r.Some? ==> exists j :: 1 <= j <= k && j < |u| && r == LazyBefore(u[j..], after, 1)
    decreases k
  {
    if k == 0 then None
    else
      var v := u[k..];
      var g := if v == [] then None else LazyBefore(v, after, 1);
      if g.Some? then g else Backtrack(u, after, k - 1)
  }

  /** `before\s+(.+?)\s+after` matches at the start of `s`, with the group it captures. */
  function GroupAt(s: string, before: string, after: string): (r: Option<string>)
    ensures r.Some? ==> |before| < |s| && s[..|before|] == before && IsSpace(s[|before|])
  {
    if |before| < |s| && s[..|before|] == before && IsSpace(s[|before|]) then
      var u := s[|before|..];
      Backtrack(u, after, |u| - |StripStart(u)|)
    else None
  }

  /**
   * `re.search(before + r'\s+(.+?)\s+' + after, s).group(1)`: the group of
   * the leftmost match.
   */
  function SearchBetween(s: string, before: string, after: string): (r: Option<string>)
    ensures r.None? <==> forall i :: 0 <= i < |s| ==> GroupAt(s[i..], before, after).None?
  {
    if s == [] then None
    else if GroupAt(s, before, after).Some? then
      assert s[0..] == s;
      GroupAt(s, before, after)
    else
      var r := SearchBetween(s[1..], before, after);
      assert forall i :: 1 <= i < |s| ==> s[i..] == s[1..][i - 1..];
      assert s[0..] == s;
      r
  }

  /**
   * A lazy group that runs up to a single space and `after` is read back
   * whole, when no character of it could begin `after` and it does not end
   * in whitespace.
   */
  lemma LazyWritten(v: string, x: string, after: string, n: nat)
    requires Layout(v, x, after) && 1 <= n <= |x|
    ensures LazyBefore(v, after, n) == Some(x)
  {
    forall k | n <= k < |x|
      ensures !EndsAt(v, after, k)
    {
      assert v[k..][..|x| - k] == x[k..];
      NoSpacesThenInside(v[k..], x[k..], after);
    }
    SpacesThenAfter(v[|x|..], after);
    assert v[..|x|] == x;
    LazyFrom(v, after, n, |x|);
  }

  /**
   * The lazy group tried from `n` on ends at `m` when `\s+word` follows at
   * `m` and at no earlier index from `n` on, and no line break comes first.
   */
  lemma {:induction false} LazyFrom(s: string, word: string, n: nat, m: nat)
    requires 1 <= n <= m <= |s| && '\n' !in s[..m] && EndsAt(s, word, m)
    requires forall k :: n <= k < m ==> !EndsAt(s, word, k)
    ensures LazyBefore(s, word, n) == Some(s[..m])
    decreases m - n
  {
    if n < m {
      LazyFrom(s, word, n + 1, m);
      assert s[..n] == s[..m][..n];
      LazySteps(s, word, n);
    } else {
      LazyStops(s, word, n);
    }
  }

  /**
   * `v` starts with the group `x`, one space and `after`; `x` holds no line
   * break, does not end in whitespace and holds no character `after` starts with.
   */
  predicate Layout(v: string, x: string, after: string)
  {
    x != [] && !IsSpace(x[|x| - 1]) && '\n' !in x
    && after != [] && !IsSpace(after[0]) && after[0] !in x
    && |x| + 1 + |after| <= |v| && v[..|x|] == x && v[|x|] == ' '
    && v[|x| + 1..|x| + 1 + |after|] == after
  }

  /** The lazy group ends at `n` when `\s+word` follows there. */
  lemma LazyStops(s: string, word: string, n: nat)
    requires 1 <= n <= |s| && '\n' !in s[..n] && EndsAt(s, word, n)
    ensures LazyBefore(s, word, n) == Some(s[..n])
  {
  }

  /** The lazy group grows past `n` when `\s+word` does not follow there. */
  lemma LazySteps(s: string, word: string, n: nat)
    requires 1 <= n < |s| && '\n' !in s[..n] && !EndsAt(s, word, n)
    ensures LazyBefore(s, word, n) == LazyBefore(s, word, n + 1)
  {
  }

  /** One space and then `after` matches `\s+after`. */
  lemma SpacesThenAfter(w: string, after: string)
    requires after != [] && !IsSpace(after[0])
    requires |after| < |w| && w[0] == ' ' && w[1..|after| + 1] == after
    ensures SpacesThen(w, after)
  {
    assert IsSpace(w[0]) && w[1..][0] == after[0];
    assert StripStart(w[1..]) == w[1..];
    assert StripStart(w) == w[1..];
    assert w[1..][..|after|] == w[1..|after| + 1];
  }

  /** `\s+after` cannot match inside a stretch `y` that ends in a non-space and holds no character beginning `after`. */
  lemma NoSpacesThenInside(w: string, y: string, after: string)
    requires y != [] && !IsSpace(y[|y| - 1]) && after != [] && after[0] !in y
    requires |y| <= |w| && w[..|y|] == y
    ensures !SpacesThen(w, after)
  {
    var t := StripStart(w);
    var c := |w| - |t|;
    assert w[|y| - 1] == y[|y| - 1];
    assert c <= |y| - 1;
    assert t[0] == w[c] == y[c];
  }

  /** A match written out as `before`, one space, the group, one space and `after` is read back. */
  lemma SearchBetweenWritten(before: string, x: string, after: string, rest: string)
    requires x != [] && !IsSpace(x[0]) && !IsSpace(x[|x| - 1]) && '\n' !in x
    requires after != [] && !IsSpace(after[0]) && after[0] !in x
    ensures SearchBetween(before + " " + x + " " + after + rest, before, after) == Some(x)
  {
    var s := before + " " + x + " " + after + rest;
    var v := x + " " + after + rest;
    assert s == before + (" " + v);
    GroupWritten(v, x, after, rest);
    GroupAtSpace(s, before, v, after);
    SearchBetweenAtStart(s, before, after);
  }

  /** The text after the space: the group, one space, `after`. */
  lemma GroupWritten(v: string, x: string, after: string, rest: string)
    requires x != [] && !IsSpace(x[|x| - 1]) && '\n' !in x
    requires after != [] && !IsSpace(after[0]) && after[0] !in x
    requires v == x + " " + after + rest
    ensures LazyBefore(v, after, 1) == Some(x)
  {
    assert v[..|x|] == x && v[|x|] == ' ';
    assert v[|x| + 1..|x| + 1 + |after|] == after;
    assert Layout(v, x, after);
    LazyWritten(v, x, after, 1);
  }

  /** `before`, a single space and a text that starts with a non-space: the group is the lazy one of that text. */
  lemma GroupAtSpace(s: string, before: string, v: string, after: string)
    requires v != [] && !IsSpace(v[0]) && s == before + (" " + v)
    ensures GroupAt(s, before, after) == LazyBefore(v, after, 1)
  {
    var u := s[|before|..];
    assert s[..|before|] == before;
    assert u == " " + v;
    StripOneSpace(u);
    assert u[1..] == v;
  }

  /** A match at the start of `s` is the leftmost one. */
  lemma SearchBetweenAtStart(s: string, before: string, after: string)
    requires GroupAt(s, before, after).Some?
    ensures SearchBetween(s, before, after) == GroupAt(s, before, after)
  {
  }

  /** `lstrip` of a single space before a non-space. */
  lemma StripOneSpace(u: string)
    requires |u| >= 2 && u[0] == ' ' && !IsSpace(u[1])
    ensures StripStart(u) == u[1..]
  {
    var t := StripStart(u);
    assert |u| - |t| == 1;
  }

  /** `re.search(r'-\s*(\d+)', s)`: the digits after the leftmost dash that spaces and then a digit follow. */
  function SearchDashNumber(s: string): Option<nat>
  {
    if s == [] then None
    else if s[0] == '-' && DigitsAfterSpaces(s[1..]).Some? then DigitsAfterSpaces(s[1..])
    else SearchDashNumber(s[1..])
  }

  /** `\s` on a `str` pattern: Unicode whitespace. */
  predicate IsSpace(c: char)
  {
    ('\t' <= c <= '\r') || ('\U{1C}' <= c <= ' ') || c == '\U{85}' || c == '\U{A0}' || c == '\U{1680}'
    || ('\U{2000}' <= c <= '\U{200A}') || c == '\U{2028}' || c == '\U{2029}' || c == '\U{202F}'
    || c == '\U{205F}' || c == '\U{3000}'
  }

  /** `s.lstrip()`: `s` without its leading whitespace. */
  function StripStart(s: string): (r: string)
    ensures |r| <= |s| && r == s[|s| - |r|..]
    ensures r == [] || !IsSpace(r[0])
    ensures forall i :: 0 <= i < |s| - |r| ==> IsSpace(s[i])
    ensures s != [] && IsSpace(s[0]) ==> |r| < |s|
  {
    if s != [] && IsSpace(s[0]) then StripStart(s[1..]) else s
  }

  /** `s.rstrip()`: `s` without its trailing whitespace. */
  function StripEnd(s: string): (r: string)
    ensures |r| <= |s| && r == s[..|r|]
    ensures r == [] || !IsSpace(r[|r| - 1])
    ensures forall i :: |r| <= i < |s| ==> IsSpace(s[i])
  {
    if s != [] && IsSpace(s[|s| - 1]) then StripEnd(s[..|s| - 1]) else s
  }

  /** `s.strip()`: `s` without its leading and trailing whitespace. */
  function Strip(s: string): (r: string)
    ensures r == [] || (!IsSpace(r[0]) && !IsSpace(r[|r| - 1]))
    ensures |r| <= |s|
  {
    StripEnd(StripStart(s))
  }

  /** The number that follows the leading whitespace of `s`, if a digit follows it. */
  function DigitsAfterSpaces(s: string): Option<nat>
  {
    if s == [] then None
    else if IsSpace(s[0]) then DigitsAfterSpaces(s[1..])
    else if IsDigit(s[0]) then Some(ParseNat(DigitRun(s)))
    else None
  }

  /** Text without the prefix's first character cannot hold a match of `prefix(\d+)` or `prefix(\d+\.\d+)`. */
  lemma {:induction false} SearchSkip(a: string, t: string, prefix: string)
    requires |prefix| >= 1 && prefix[0] !in a
    ensures SearchNumber(a + t, prefix) == SearchNumber(t, prefix)
    ensures SearchDecimal(a + t, prefix) == SearchDecimal(t, prefix)
  {
    if a != [] {
      assert (a + t)[0] == a[0];
      assert (a + t)[1..] == a[1..] + t;
      SearchSkip(a[1..], t, prefix);
    } else {
      assert a + t == t;
    }
  }

  /** Text without digits cannot hold a match of `(\d+)suffix`. */
  lemma {:induction false} SearchBeforeSkip(a: string, t: string, suffix: string)
    requires suffix != [] && !IsDigit(suffix[0])
    requires forall i :: 0 <= i < |a| ==> !IsDigit(a[i])
    ensures SearchNumberBefore(a + t, suffix) == SearchNumberBefore(t, suffix)
  {
    if a != [] {
      assert (a + t)[0] == a[0];
      assert (a + t)[1..] == a[1..] + t;
      SearchBeforeSkip(a[1..], t, suffix);
    } else {
      assert a + t == t;
    }
  }

  /** A number written right before the suffix is read back. */
  lemma SearchBeforeWritten(n: nat, suffix: string, rest: string)
    requires suffix != [] && !IsDigit(suffix[0])
    ensures SearchNumberBefore(NatText(n) + suffix + rest, suffix) == Some(n)
  {
    var s := NatText(n) + suffix + rest;
    assert DigitRun(s) == NatText(n) by {
      assert s == NatText(n) + (suffix + rest);
      DigitRunOf(NatText(n), suffix + rest);
    }
    assert s[|NatText(n)|..|NatText(n)| + |suffix|] == suffix;
    SearchBeforeAtStart(s, suffix);
    NatTextRoundTrip(n);
  }

  /** A match at the start of `s` is the leftmost one. */
  lemma SearchBeforeAtStart(s: string, suffix: string)
    requires suffix != [] && !IsDigit(suffix[0]) && NumberBeforeAt(s, suffix)
    ensures SearchNumberBefore(s, suffix) == Some(ParseNat(DigitRun(s)))
  {
  }

  /** A number written right after the prefix is read back, whatever non-digit text follows. */
  lemma SearchNumberWritten(prefix: string, n: nat, rest: string)
    requires |prefix| >= 1
    requires rest == [] || !IsDigit(rest[0])
    ensures SearchNumber(prefix + NatText(n) + rest, prefix) == Some(n)
  {
    var s := prefix + NatText(n) + rest;
    assert s[..|prefix|] == prefix;
    assert s[|prefix|..] == NatText(n) + rest;
    DigitRunOf(NatText(n), rest);
    NatTextRoundTrip(n);
    assert IsDigit(s[|prefix|]);
    SearchNumberAtStart(s, prefix);
  }

  /** A match at the start of `s` is the leftmost one. */
  lemma SearchNumberAtStart(s: string, prefix: string)
    requires NumberAt(s, prefix)
    ensures SearchNumber(s, prefix) == Some(ParseNat(DigitRun(s[|prefix|..])))
  {
  }

  /** A decimal written right after the prefix is read back as its digits, whatever non-digit text follows. */
  lemma SearchDecimalWritten(prefix: string, whole: string, frac: string, rest: string)
    requires |prefix| >= 1 && |whole| >= 1 && |frac| >= 1 && AllDigits(whole) && AllDigits(frac)
    requires rest == [] || !IsDigit(rest[0])
    ensures SearchDecimal(prefix + (whole + ("." + (frac + rest))), prefix) == Some(Token(whole, frac))
  {
    var after := "." + (frac + rest);
    var tail := whole + after;
    var s := prefix + tail;
    assert s[..|prefix|] == prefix && s[|prefix|..] == tail;
    DigitRunOf(whole, after);
    assert tail[|whole|..] == after;
    assert after[1..] == frac + rest;
    assert IsDigit(tail[0]) && IsDigit(tail[|whole| + 1]);
    assert DecimalAt(s, prefix);
    DigitRunOf(frac, rest);
    assert DecimalToken(s, prefix) == Token(whole, frac);
  }

  /**
   * `re.findall(r'\d+\.\d+|\d+', s)[0]` when there is a match: at the first
   * digit the decimal alternative is tried first, and it matches exactly
   * when the digit run there is followed by a point and a digit.
   */
  function FirstNumberToken(s: string): (r: Option<Token>)
    ensures r.None? <==> FirstNumber(s).None?
    ensures r.Some? ==> WellFormed(r.value)
  {
    if s == [] then None
    else if IsDigit(s[0]) then
      if DecimalAt(s, "") then Some(DecimalToken(s, "")) else Some(Token(DigitRun(s), ""))
    else
      var r := FirstNumberToken(s[1..]);
      assert forall i :: 1 <= i < |s| ==> s[i] == s[1..][i - 1];
      r
  }

  /** A token written at the start of a text is its first number. */
  lemma {:induction false} FirstNumberTokenAtStart(t: Token, rest: string)
    requires WellFormed(t)
    requires rest == [] || (!IsDigit(rest[0]) && rest[0] != '.')
    ensures FirstNumberToken(TokenText(t) + rest) == Some(t)
  {
    if t.frac == "" {
      assert TokenText(t) == t.whole && t == Token(t.whole, "");
      WholeTokenAtStart(t.whole, rest);
    } else {
      DecimalTokenAtStart(t, rest);
    }
  }

  lemma WholeTokenAtStart(whole: string, rest: string)
    requires |whole| >= 1 && AllDigits(whole)
    requires rest == [] || (!IsDigit(rest[0]) && rest[0] != '.')
    ensures FirstNumberToken(whole + rest) == Some(Token(whole, ""))
  {
    var s := whole + rest;
    DigitRunOf(whole, rest);
    assert s[0] == whole[0];
    assert s[|whole|..] == rest;
    assert !DecimalAt(s, "");
  }

  lemma DecimalTokenAtStart(t: Token, rest: string)
    requires WellFormed(t) && t.frac != ""
    requires rest == [] || (!IsDigit(rest[0]) && rest[0] != '.')
    ensures FirstNumberToken(TokenText(t) + rest) == Some(t)
  {
    var s := TokenText(t) + rest;
    assert s == t.whole + ("." + (t.frac + rest));
    assert s[0] == t.whole[0];
    DecimalWritten(s, t.whole, t.frac, rest);
  }

  /** The decimal alternative matches a written decimal and reads its token back. */
  lemma DecimalWritten(s: string, whole: string, frac: string, rest: string)
    requires |whole| >= 1 && AllDigits(whole) && |frac| >= 1 && AllDigits(frac)
    requires s == whole + ("." + (frac + rest))
    requires rest == [] || (!IsDigit(rest[0]) && rest[0] != '.')
    ensures DecimalAt(s, "") && DecimalToken(s, "") == Token(whole, frac)
  {
    var w := |whole|;
    assert s[..w] == whole && s[w] == '.';
    DigitRunAt(s, w);
    var f := s[w + 1..];
    assert f == frac + rest;
    DigitRunOf(frac, rest);
    assert s[0..] == s;
  }

  /** The digit run at the start of `s` is its first `k` characters when they are digits and a non-digit follows. */
  lemma {:induction false} DigitRunAt(s: string, k: nat)
    requires k <= |s| && AllDigits(s[..k]) && (k == |s| || !IsDigit(s[k]))
    ensures DigitRun(s) == s[..k]
  {
    if k > 0 {
      assert IsDigit(s[..k][0]);
      assert s[1..][..k - 1] == s[1..k];
      DigitRunAt(s[1..], k - 1);
      assert s[..k] == [s[0]] + s[1..k];
    }
  }

  /** The first number of a text is the token written after a prefix without digits. */
  lemma {:induction false} FirstNumberTokenWritten(p: string, t: Token, rest: string)
    requires WellFormed(t) && forall i :: 0 <= i < |p| ==> !IsDigit(p[i])
    requires rest == [] || (!IsDigit(rest[0]) && rest[0] != '.')
    ensures FirstNumberToken(p + (TokenText(t) + rest)) == Some(t)
  {
    if p == [] {
      assert p + (TokenText(t) + rest) == TokenText(t) + rest;
      FirstNumberTokenAtStart(t, rest);
    } else {
      assert (p + (TokenText(t) + rest))[1..] == p[1..] + (TokenText(t) + rest);
      FirstNumberTokenWritten(p[1..], t, rest);
    }
  }

  /**
   * Whether the match of `re.search(r"\d+\.?\d*", s)` holds a point: the
   * leftmost digit run is followed by `.`.
   */
  predicate PointAfterFirstNumber(s: string)
  {
    if s == [] then false
    else if IsDigit(s[0]) then |DigitRun(s)| < |s| && s[|DigitRun(s)|] == '.'
    else PointAfterFirstNumber(s[1..])
  }

  /**
   * `int(re.search(r"\d+\.?\d*", s).group())`: `AttributeError` (the search
   * gives `None`) when `s` has no digit, `ValueError` when the match holds a
   * point, and otherwise the leftmost number.
   */
  function IntOfFirstNumber(s: string): (r: Result<nat>)
    ensures r.Fail? <==> FirstNumber(s).None? || PointAfterFirstNumber(s)
    ensures FirstNumber(s).None? ==> r == Fail(AttributeError)
    ensures FirstNumber(s).Some? && PointAfterFirstNumber(s) ==> r == Fail(ValueError)
    ensures r.Ok? ==> Some(r.value) == FirstNumber(s)
  {
    match FirstNumber(s)
    case None => Fail(AttributeError)
    case Some(n) => if PointAfterFirstNumber(s) then Fail(ValueError) else Ok(n)
  }

  /** A whole number written after a prefix without digits is read back. */
  lemma {:induction false} IntOfFirstNumberWritten(p: string, n: nat, rest: string)
    requires forall i :: 0 <= i < |p| ==> !IsDigit(p[i])
    requires rest == [] || (!IsDigit(rest[0]) && rest[0] != '.')
    ensures IntOfFirstNumber(p + NatText(n) + rest) == Ok(n)
  {
    WrittenAfter(p, NatText(n), rest);
    NatTextRoundTrip(n);
  }

  /** A number with a point written after a prefix without digits makes `int` raise `ValueError`. */
  lemma {:induction false} IntOfFirstNumberPoint(p: string, n: nat, rest: string)
    requires forall i :: 0 <= i < |p| ==> !IsDigit(p[i])
    ensures IntOfFirstNumber(p + NatText(n) + ("." + rest)) == Fail(ValueError)
  {
    WrittenAfter(p, NatText(n), "." + rest);
  }

  /** The leftmost digit run of a text is the one written after a prefix without digits. */
  lemma {:induction false} WrittenAfter(p: string, w: string, rest: string)
    requires forall i :: 0 <= i < |p| ==> !IsDigit(p[i])
    requires |w| >= 1 && AllDigits(w) && (rest == [] || !IsDigit(rest[0]))
    ensures FirstNumber(p + w + rest) == Some(ParseNat(w))
    ensures PointAfterFirstNumber(p + w + rest) <==> rest != [] && rest[0] == '.'
  {
    if p == [] {
      assert p + w + rest == w + rest;
      DigitRunOf(w, rest);
      assert (w + rest)[0] == w[0];
      assert (w + rest)[|w|..] == rest;
    } else {
      assert (p + w + rest)[1..] == p[1..] + w + rest;
      WrittenAfter(p[1..], w, rest);
    }
  }
}
