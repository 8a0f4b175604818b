/**
 * Python's re.search with the pattern [^0-9]*([0-9]*)([smhdwMy]).* (rePath).
 *
 * search tries start positions from left to right and, at each start, backtracks the
 * greedy [^0-9]* first to its longest run and then shorter, and within each choice the
 * greedy [0-9]* from longest to shorter.  The trailing .* always matches (possibly empty),
 * so a match is fixed by its start, the start of group 1 and the position of group 2.
 */
module PathPattern {
  import opened Wrappers

  predicate IsDigit(c: char) { '0' <= c <= '9' }

  /** The character class [smhdwMy]. */
  predicate IsUnit(c: char) {
    c == 's' || c == 'm' || c == 'h' || c == 'd' || c == 'w' || c == 'M' || c == 'y'
  }

  /** A match: it starts at start, group 1 is s[digitsFrom..unitAt], group 2 is s[unitAt]. */
  datatype Match = Match(start: nat, digitsFrom: nat, unitAt: nat)

  /** The regular expression matches s at start p with these groups. */
  ghost predicate MatchesAt(s: string, p: nat, a: nat, b: nat) {
    && p <= a <= b < |s|
    && (forall i :: p <= i < a ==> !IsDigit(s[i]))
    && (forall i :: a <= i < b ==> IsDigit(s[i]))
    && IsUnit(s[b])
  }

  /** At a single start, backtracking prefers a longer [^0-9]*, then a longer [0-9]*. */
  ghost predicate PreferredOver(a: nat, b: nat, a': nat, b': nat) {
    a' < a || (a' == a && b' <= b)
  }

  /** The match re.search reports: the leftmost start, and the preferred groups there. */
  ghost predicate LeftmostMatch(s: string, p: nat, a: nat, b: nat) {
    && MatchesAt(s, p, a, b)
    && forall q, a', b' :: MatchesAt(s, q, a', b') ==> p < q || (p == q && PreferredOver(a, b, a', b'))
  }

  /** End of the run of non-digits starting at p. */
  function NonDigitEnd(s: string, p: nat): (k: nat)
    requires p <= |s|
    ensures p <= k <= |s|
    ensures forall i :: p <= i < k ==> !IsDigit(s[i])
    ensures k < |s| ==> IsDigit(s[k])
    decreases |s| - p
  {
    if p == |s| || IsDigit(s[p]) then p else NonDigitEnd(s, p + 1)
  }

  /** End of the run of digits starting at p. */
  function DigitEnd(s: string, p: nat): (e: nat)
    requires p <= |s|
    ensures p <= e <= |s|
    ensures forall i :: p <= i < e ==> IsDigit(s[i])
    ensures e < |s| ==> !IsDigit(s[e])
    decreases |s| - p
  {
    if p == |s| || !IsDigit(s[p]) then p else DigitEnd(s, p + 1)
  }

  /** The largest i in [p, k) where s[i] is a unit letter, if any. */
  function LastUnitIn(s: string, p: nat, k: nat): (r: Option<nat>)
    requires p <= k <= |s|
    ensures r.Some? ==> p <= r.value < k && IsUnit(s[r.value])
    ensures r.Some? ==> forall i :: r.value < i < k ==> !IsUnit(s[i])
    ensures r.None? ==> forall i :: p <= i < k ==> !IsUnit(s[i])
    decreases k - p
  {
    if k == p then None
    else if IsUnit(s[k - 1]) then Some(k - 1)
    else LastUnitIn(s, p, k - 1)
  }

  /** The match backtracking finds at start p, if any. */
  /**
   * The match the regular expression reports when it is tried at start p alone: the
   * longest [^0-9]* and [0-9]* runs if a unit letter follows, else an empty group 1 just
   * before the last unit letter inside the [^0-9]* run, else none.
   */
  function MatchAt(s: string, p: nat): (r: Option<Match>)
    requires p <= |s|
    ensures r.Some? ==> r.value.start == p && MatchesAt(s, p, r.value.digitsFrom, r.value.unitAt)
  {
    var k := NonDigitEnd(s, p);
    var e := DigitEnd(s, k);
    if e < |s| && IsUnit(s[e]) then Some(Match(p, k, e))
    else match LastUnitIn(s, p, k)
      case Some(i) => Some(Match(p, i, i))
      case None => None
  }

  /** re.search from start position p onwards. */
  function SearchFrom(s: string, p: nat): (r: Option<Match>)
    requires p <= |s|
    ensures r.Some? ==> p <= r.value.start && MatchesAt(s, r.value.start, r.value.digitsFrom, r.value.unitAt)
    decreases |s| - p
  {
    match MatchAt(s, p)
    case Some(m) => Some(m)
    case None => if p == |s| then None else SearchFrom(s, p + 1)
  }

  /** rePath.search(s). */
  function Search(s: string): (r: Option<Match>)
    ensures r.Some? ==> MatchesAt(s, r.value.start, r.value.digitsFrom, r.value.unitAt)
  {
    SearchFrom(s, 0)
  }

  /** Every match at start p has one of the two shapes backtracking tries. */
  lemma MatchShape(s: string, p: nat, a: nat, b: nat)
    requires MatchesAt(s, p, a, b)
    ensures var k := NonDigitEnd(s, p);
            (a < k && b == a) || (a == k && b == DigitEnd(s, k))
  {
    var k := NonDigitEnd(s, p);
    var e := DigitEnd(s, k);
    if k < |s| { assert IsDigit(s[k]); }
    if a < k { assert !IsDigit(s[a]); }
    if e < |s| { assert !IsDigit(s[e]); }
    assert !IsDigit(s[b]);
  }

  /** MatchAt finds the preferred match at p, and finds none exactly when there is none. */
  lemma MatchAtCorrect(s: string, p: nat)
    requires p <= |s|
    ensures MatchAt(s, p).Some? ==>
              var m := MatchAt(s, p).value;
              && m.start == p && MatchesAt(s, p, m.digitsFrom, m.unitAt)
              && forall a, b :: MatchesAt(s, p, a, b) ==> PreferredOver(m.digitsFrom, m.unitAt, a, b)
    ensures MatchAt(s, p).None? ==> forall a, b :: !MatchesAt(s, p, a, b)
  {
    var k := NonDigitEnd(s, p);
    var e := DigitEnd(s, k);
    forall a, b | MatchesAt(s, p, a, b)
      ensures MatchAt(s, p).Some?
      ensures MatchAt(s, p).Some? ==> PreferredOver(MatchAt(s, p).value.digitsFrom, MatchAt(s, p).value.unitAt, a, b)
    {
      MatchShape(s, p, a, b);
    }
  }

  /** SearchFrom(s, p) reports the leftmost preferred match among the starts q >= p. */
  lemma {:induction false} SearchFromCorrect(s: string, p: nat)
    requires p <= |s|
    ensures SearchFrom(s, p).Some? ==>
              var m := SearchFrom(s, p).value;
              && p <= m.start && MatchesAt(s, m.start, m.digitsFrom, m.unitAt)
              && forall q, a, b :: p <= q && MatchesAt(s, q, a, b) ==>
                   m.start < q || (m.start == q && PreferredOver(m.digitsFrom, m.unitAt, a, b))
    ensures SearchFrom(s, p).None? ==> forall q, a, b :: p <= q ==> !MatchesAt(s, q, a, b)
    decreases |s| - p
  {
    MatchAtCorrect(s, p);
    if MatchAt(s, p).None? && p < |s| {
      SearchFromCorrect(s, p + 1);
    }
  }

  /**
   * re.search reports exactly the leftmost match with the preferred groups, and reports
   * nothing exactly when the pattern matches nowhere.
   */
  lemma SearchCorrect(s: string)
    ensures Search(s).Some? ==>
              LeftmostMatch(s, Search(s).value.start, Search(s).value.digitsFrom, Search(s).value.unitAt)
    ensures Search(s).None? <==> forall q, a, b :: !MatchesAt(s, q, a, b)
  {
    SearchFromCorrect(s, 0);
  }

  /** There is at most one leftmost preferred match. */
  lemma LeftmostMatchUnique(s: string, p: nat, a: nat, b: nat, p': nat, a': nat, b': nat)
    requires LeftmostMatch(s, p, a, b) && LeftmostMatch(s, p', a', b')
    ensures p == p' && a == a' && b == b'
  {
  }
}
