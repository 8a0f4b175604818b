/**
 * XMLFile: a voltage-log file keyed by the time unit and count found in its path, the
 * comparison operators on that key, and the order xmlFiles.sort() puts them in.
 */
module LogFiles {
  import opened Wrappers
  import opened PathPattern

  /** A letter of [smhdwMy]. */
  type Unit = c: char | IsUnit(c) witness 's'

  /** shortDateOrder: the rank of each unit, from seconds to years. */
  const ShortDateOrder: map<char, nat> :=
    map['s' := 1, 'm' := 2, 'h' := 3, 'd' := 4, 'w' := 5, 'M' := 6, 'y' := 7]

  /** shortDateOrder[u]; every unit is a key. */
  function Rank(u: Unit): (r: nat)
    ensures 1 <= r <= 7
  {
    ShortDateOrder[u]
  }

  datatype LogFile = LogFile(path: string, shortDate: Unit, dateCount: nat)

  /** Why XMLFile(path) raises: match.group on no match, or int("") on an empty group 1. */
  datatype ParseError = NoMatch | EmptyCount

  predicate AllDigits(ds: string) {
    forall i :: 0 <= i < |ds| ==> IsDigit(ds[i])
  }

  /** int(ds) for a run of decimal digits; 0 for the empty run, where int("") raises instead. */
  function DecimalValue(ds: string): (v: nat)
    requires AllDigits(ds)
    ensures v < Pow10(|ds|)
  {
    if ds == [] then 0
    else DecimalValue(ds[..|ds| - 1]) * 10 + (ds[|ds| - 1] as int - '0' as int)
  }

  function Pow10(k: nat): (r: nat)
    ensures r >= 1
  {
    if k == 0 then 1 else 10 * Pow10(k - 1)
  }

  /** The decimal digits of n, most significant first, with no leading zero. */
  function DecimalDigits(n: nat): (ds: string)
    ensures AllDigits(ds) && |ds| > 0
  {
    if n < 10 then [('0' as int + n) as char]
    else DecimalDigits(n / 10) + [('0' as int + n % 10) as char]
  }

  /** XMLFile(path): the key is group 2 and the decimal value of group 1 of the search. */
  function ParseLogFile(path: string): (r: Result<LogFile, ParseError>)
    ensures r.Success? ==> r.value.path == path
    ensures r.Failure? && r.error == NoMatch <==> Search(path).None?
    ensures r.Success? <==> Search(path).Some? && Search(path).value.digitsFrom < Search(path).value.unitAt
  {
    match Search(path)
    case None => Failure(NoMatch)
    case Some(m) =>
      SearchCorrect(path);
      if m.digitsFrom == m.unitAt then Failure(EmptyCount)
      else Success(LogFile(path, path[m.unitAt], DecimalValue(path[m.digitsFrom..m.unitAt])))
  }

  /**
   * XMLFile(path) fails with NoMatch exactly when the pattern matches nowhere; otherwise
   * the leftmost preferred match decides: an empty group 1 fails at int(""), and a
   * non-empty one gives the unit letter after it and the decimal value of the digits.
   */
  lemma ParseLogFileCorrect(path: string)
    ensures ParseLogFile(path) == Failure(NoMatch) <==> forall q, a, b :: !MatchesAt(path, q, a, b)
    ensures forall p: nat, a: nat, b: nat :: LeftmostMatch(path, p, a, b) ==>
              ParseLogFile(path) ==
                if a == b then Failure(EmptyCount)
                else Success(LogFile(path, path[b], DecimalValue(path[a..b])))
  {
    SearchCorrect(path);
    forall p: nat, a: nat, b: nat | LeftmostMatch(path, p, a, b)
      ensures Search(path) == Some(Match(p, a, b))
    {
      var m := Search(path).value;
      LeftmostMatchUnique(path, p, a, b, m.start, m.digitsFrom, m.unitAt);
    }
  }

  /** Reading back the digits of a count gives the count. */
  lemma {:induction false} DecimalRoundTrip(n: nat)
    ensures DecimalValue(DecimalDigits(n)) == n
  {
    var ds := DecimalDigits(n);
    if n >= 10 {
      DecimalRoundTrip(n / 10);
      assert ds[..|ds| - 1] == DecimalDigits(n / 10);
    }
  }

  /**
   * A path whose directory part has no digit, followed by a count, a unit letter and any
   * suffix (say "xml/voltage-12h.xml"), parses to that unit and count.
   */
  lemma ParseAfterDigitFreePrefix(prefix: string, n: nat, u: Unit, suffix: string)
    requires forall i :: 0 <= i < |prefix| ==> !IsDigit(prefix[i])
    ensures var path := prefix + DecimalDigits(n) + [u] + suffix;
            ParseLogFile(path) == Success(LogFile(path, u, n))
  {
    var ds := DecimalDigits(n);
    var path := prefix + ds + [u] + suffix;
    var k, e := |prefix|, |prefix| + |ds|;
    assert forall i :: 0 <= i < k ==> path[i] == prefix[i];
    assert forall i :: k <= i < e ==> path[i] == ds[i - k];
    assert path[e] == u;
    assert IsDigit(path[k]);
    SearchOfRuns(path, k, e);
    assert path[k..e] == ds;
    DecimalRoundTrip(n);
  }

  /** A digit-free run, a non-empty digit run and a unit letter: the search takes them whole. */
  lemma SearchOfRuns(path: string, k: nat, e: nat)
    requires k < e < |path| && IsUnit(path[e])
    requires forall i :: 0 <= i < k ==> !IsDigit(path[i])
    requires forall i :: k <= i < e ==> IsDigit(path[i])
    ensures Search(path) == Some(Match(0, k, e))
  {
    assert IsDigit(path[k]) && !IsDigit(path[e]);
    var k' := NonDigitEnd(path, 0);
    if k' < |path| { assert IsDigit(path[k']); }
    assert k' == k;
    var e' := DigitEnd(path, k);
    if e' < |path| { assert !IsDigit(path[e']); }
    assert e' == e;
  }

  /**
   * A path that starts with a digit-free part holding a unit letter, then digits, then a
   * character that is neither (say the directory "xml2/" of "xml2/1d.xml", whose 'm' is
   * a unit letter) fails at int(""), whatever follows.
   */
  lemma StrayDigitsFail(prefix: string, ds: string, c: char, suffix: string)
    requires forall i :: 0 <= i < |prefix| ==> !IsDigit(prefix[i])
    requires exists i :: 0 <= i < |prefix| && IsUnit(prefix[i])
    requires AllDigits(ds) && |ds| > 0
    requires !IsDigit(c) && !IsUnit(c)
    ensures ParseLogFile(prefix + ds + [c] + suffix) == Failure(EmptyCount)
  {
    var path := prefix + ds + [c] + suffix;
    var k, e := |prefix|, |prefix| + |ds|;
    assert forall i :: 0 <= i < k ==> path[i] == prefix[i];
    assert forall i :: k <= i < e ==> path[i] == ds[i - k];
    assert path[e] == c;
    assert IsDigit(path[k]);
    assert NonDigitEnd(path, 0) == k;
    assert DigitEnd(path, k) == e;
    var u :| 0 <= u < |prefix| && IsUnit(prefix[u]);
    assert IsUnit(path[u]);
    assert LastUnitIn(path, 0, k).Some?;
  }

  /** A path with no unit letter at all does not match. */
  lemma NoUnitNoMatch(path: string)
    requires forall i :: 0 <= i < |path| ==> !IsUnit(path[i])
    ensures ParseLogFile(path) == Failure(NoMatch)
  {
    ParseLogFileCorrect(path);
  }

  // The comparison operators, as written.

  /** __eq__: keys equal as (rank, count) pairs. */
  predicate Eq(x: LogFile, y: LogFile) {
    (Rank(x.shortDate), x.dateCount) == (Rank(y.shortDate), y.dateCount)
  }

  /** __lt__: lexicographic on (rank, count). */
  predicate Lt(x: LogFile, y: LogFile) {
    Rank(x.shortDate) < Rank(y.shortDate)
    || (Rank(x.shortDate) == Rank(y.shortDate) && x.dateCount < y.dateCount)
  }

  /** __gt__: lexicographic on (rank, count). */
  predicate Gt(x: LogFile, y: LogFile) {
    Rank(x.shortDate) > Rank(y.shortDate)
    || (Rank(x.shortDate) == Rank(y.shortDate) && x.dateCount > y.dateCount)
  }

  /** __le__ as written: componentwise, both rank and count no larger. */
  predicate Le(x: LogFile, y: LogFile) {
    Rank(x.shortDate) <= Rank(y.shortDate) && x.dateCount <= y.dateCount
  }

  /** __ge__ as written: componentwise, both rank and count no smaller. */
  predicate Ge(x: LogFile, y: LogFile) {
    Rank(x.shortDate) >= Rank(y.shortDate) && x.dateCount >= y.dateCount
  }

  /** The order a @total_ordering class is meant to have: less than or equal. */
  predicate LeIntended(x: LogFile, y: LogFile) {
    Lt(x, y) || Eq(x, y)
  }

  /** shortDateOrder ranks the units s < m < h < d < w < M < y, and no two alike. */
  lemma ShortDateOrderRanks()
    ensures forall c :: c in ShortDateOrder <==> IsUnit(c)
    ensures Rank('s') < Rank('m') < Rank('h') < Rank('d') < Rank('w') < Rank('M') < Rank('y')
    ensures forall u: Unit, v: Unit :: Rank(u) == Rank(v) ==> u == v
    ensures forall u: Unit :: 1 <= Rank(u) <= 7
  {
  }

  /** __eq__ is equality of the unit letter and the count. */
  lemma EqIsKeyEquality(x: LogFile, y: LogFile)
    ensures Eq(x, y) <==> x.shortDate == y.shortDate && x.dateCount == y.dateCount
  {
    ShortDateOrderRanks();
  }

  /** Exactly one of <, ==, > holds, and > is the converse of <. */
  lemma Trichotomy(x: LogFile, y: LogFile)
    ensures Lt(x, y) || Eq(x, y) || Gt(x, y)
    ensures !(Lt(x, y) && Eq(x, y)) && !(Lt(x, y) && Gt(x, y)) && !(Eq(x, y) && Gt(x, y))
    ensures Gt(x, y) <==> Lt(y, x)
  {
  }

  /** < is a strict order: irreflexive and transitive. */
  lemma LtStrictOrder(x: LogFile, y: LogFile, z: LogFile)
    ensures !Lt(x, x)
    ensures Lt(x, y) && Lt(y, z) ==> Lt(x, z)
  {
  }

  /** The componentwise <= only holds where < or == does, and >= only where > or == does. */
  lemma LeGeAsWritten(x: LogFile, y: LogFile)
    ensures Le(x, y) ==> LeIntended(x, y)
    ensures Ge(x, y) ==> Gt(x, y) || Eq(x, y)
    ensures Le(x, y) <==> Ge(y, x)
  {
    EqIsKeyEquality(x, y);
  }

  /** The converse fails: "1h" < "0d", yet "1h" <= "0d" is False. */
  lemma LtDoesNotImplyLe()
    ensures var x, y := LogFile("1h", 'h', 1), LogFile("0d", 'd', 0);
            Lt(x, y) && !Le(x, y) && !Ge(y, x)
  {
  }

  /** The intended <= is a total preorder, and it is "not greater", the relation sort uses. */
  lemma LeIntendedTotalPreorder(x: LogFile, y: LogFile, z: LogFile)
    ensures LeIntended(x, x)
    ensures LeIntended(x, y) || LeIntended(y, x)
    ensures LeIntended(x, y) && LeIntended(y, z) ==> LeIntended(x, z)
    ensures LeIntended(x, y) <==> !Lt(y, x)
  {
  }

  /** What list.sort() guarantees with __lt__: no later element is less than an earlier one. */
  ghost predicate SortedByLt(fs: seq<LogFile>) {
    forall i, j :: 0 <= i < j < |fs| ==> !Lt(fs[j], fs[i])
  }

  /**
   * A sorted list of log files runs through the units from seconds to years, and within
   * one unit by count.
   */
  lemma SortedMeansKeyOrder(fs: seq<LogFile>, i: nat, j: nat)
    requires SortedByLt(fs)
    requires i <= j < |fs|
    ensures LeIntended(fs[i], fs[j])
    ensures Rank(fs[i].shortDate) <= Rank(fs[j].shortDate)
    ensures fs[i].shortDate == fs[j].shortDate ==> fs[i].dateCount <= fs[j].dateCount
  {
    if i < j {
      LeIntendedTotalPreorder(fs[i], fs[j], fs[j]);
    }
  }
}
