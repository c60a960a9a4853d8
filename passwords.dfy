/**
 * The password rules of AOC19-04.js: a number's digits never decrease from
 * left to right and two adjacent digits are the same (part 1), or some
 * group of equal adjacent digits is exactly two long (part 2); and the
 * loops that collect the numbers of a range that a rule allows.
 */
module Passwords {
  import opened Wrappers
  import opened Text

  // The digits of a number

  /** The decimal digits of a number, as values, most significant first. */
  function DigitsOf(value: nat): (d: seq<nat>)
    ensures |d| == |Digits(value)| > 0
    decreases value
  {
    if value < 10 then [value] else DigitsOf(value / 10) + [value % 10]
  }

  /** `parseInt(text[index])`: a digit, or None (NaN) past the end of the text. */
  function DigitAt(text: string, index: nat): Option<nat> {
    if index < |text| then DigitValue(text[index], 10) else None
  }

  /** Reading a digit character gives its value. */
  lemma DigitOfChar(k: nat)
    requires k < 10
    ensures DigitValue(DigitChar(k), 10) == Some(k)
  {
    assert "0123456789"[k] as int == '0' as int + k by {
      assert "0123456789"[0] == '0' && "0123456789"[1] == '1' && "0123456789"[2] == '2';
      assert "0123456789"[3] == '3' && "0123456789"[4] == '4' && "0123456789"[5] == '5';
      assert "0123456789"[6] == '6' && "0123456789"[7] == '7' && "0123456789"[8] == '8';
      assert "0123456789"[9] == '9';
    }
  }

  /** Reading a digit of the text of a number gives the digit; past its end, NaN. */
  lemma {:induction false} DigitAtIs(value: nat, index: nat)
    ensures DigitAt(Digits(value), index) == if index < |DigitsOf(value)| then Some(DigitsOf(value)[index]) else None
    decreases value
  {
    if value < 10 {
      DigitOfChar(value);
    } else {
      var head := Digits(value / 10);
      if index < |head| {
        DigitAtIs(value / 10, index);
        assert Digits(value)[index] == head[index];
        assert DigitsOf(value)[index] == DigitsOf(value / 10)[index];
      } else if index == |head| {
        DigitOfChar(value % 10);
      }
    }
  }

  /** `a < b` on numbers that may be NaN: false when either is. */
  predicate Below(a: Option<nat>, b: Option<nat>) {
    a.Some? && b.Some? && a.value < b.value
  }

  /** `a == b` on numbers that may be NaN: false when either is. */
  predicate Same(a: Option<nat>, b: Option<nat>) {
    a.Some? && b.Some? && a.value == b.value
  }

  /** The text of a number reads as its digits, then NaN. */
  ghost predicate Reads(text: string, d: seq<nat>) {
    |text| == |d| &&
    forall index: nat :: DigitAt(text, index) == if index < |d| then Some(d[index]) else None
  }

  /** `value.toString()` reads as the digits of `value`. */
  lemma TextReads(value: nat)
    ensures Reads(Digits(value), DigitsOf(value))
  {
    forall index: nat
      ensures DigitAt(Digits(value), index) == if index < |DigitsOf(value)| then Some(DigitsOf(value)[index]) else None
    {
      DigitAtIs(value, index);
    }
  }

  // The rules, on digit sequences

  /** No digit among the first `k` is smaller than one to its left. */
  predicate OrderedTo(d: seq<nat>, k: nat)
    requires k <= |d|
  {
    forall i, j | 0 <= i <= j < k :: d[i] <= d[j]
  }

  predicate NonDecreasing(d: seq<nat>) {
    OrderedTo(d, |d|)
  }

  /** The digit at `i` equals the one before it. */
  predicate PairAt(d: seq<nat>, i: nat) {
    0 < i < |d| && d[i - 1] == d[i]
  }

  /** Two adjacent digits among the first `k` are the same. */
  predicate PairBefore(d: seq<nat>, k: nat) {
    exists i | 0 < i < k :: PairAt(d, i)
  }

  predicate HasPair(d: seq<nat>) {
    PairBefore(d, |d|)
  }

  /** Part 1: the digits never decrease and two adjacent digits are the same. */
  predicate Allowed(d: seq<nat>) {
    NonDecreasing(d) && HasPair(d)
  }

  /**
   * The groups of equal adjacent digits among the first `k`, as the part 2
   * check keeps them while it scans: the lengths of the groups already
   * closed, left to right, and the length of the open one. A digit equal to
   * the one before lengthens the open group; any other closes it and opens
   * a new one.
   */
  function Groups(d: seq<nat>, k: nat): (g: (seq<nat>, nat))
    requires 0 < k <= |d|
  {
    if k == 1 then ([], 1)
    else
      var (closed, count) := Groups(d, k - 1);
      if d[k - 1] == d[k - 2] then (closed, count + 1) else (closed + [count], 1)
  }

  /** The lengths of all the groups, left to right, as `adjacentRuns` holds them once the scan ends. */
  function Runs(d: seq<nat>): seq<nat>
    requires |d| > 0
  {
    Groups(d, |d|).0 + [Groups(d, |d|).1]
  }

  /** Part 2: the digits never decrease and some group of equal adjacent digits is exactly two long. */
  predicate Allowed2(d: seq<nat>)
    requires |d| > 0
  {
    NonDecreasing(d) && 2 in Runs(d)
  }

  // What the groups are

  /** How many equal digits end at position `e`, counting back. */
  function RunAt(d: seq<nat>, e: nat): (n: nat)
    requires e < |d|
    ensures n >= 1
  {
    if e == 0 || d[e - 1] != d[e] then 1 else RunAt(d, e - 1) + 1
  }

  /** Two equal digits at `i` and `i + 1`, with a different digit or nothing on either side. */
  predicate PairAlone(d: seq<nat>, i: nat) {
    i + 1 < |d| && d[i] == d[i + 1] && (i == 0 || d[i - 1] != d[i]) && (i + 2 == |d| || d[i + 2] != d[i])
  }

  function Sum(s: seq<nat>): nat {
    if |s| == 0 then 0 else Sum(s[..|s| - 1]) + s[|s| - 1]
  }

  /** Among the first `k` digits, a group `n` long ends at position `e` and a different digit follows it. */
  predicate Closes(d: seq<nat>, k: nat, e: nat, n: nat)
    requires k <= |d|
  {
    e + 1 < k && d[e] != d[e + 1] && RunAt(d, e) == n
  }

  /** Among the first `k` digits, some group `n` long is followed by a different digit. */
  ghost predicate HasClosedGroup(d: seq<nat>, k: nat, n: nat)
    requires k <= |d|
  {
    exists e: nat :: Closes(d, k, e, n)
  }

  /** The open group is the one ending at the last digit scanned. */
  lemma {:induction false} LastGroup(d: seq<nat>, k: nat)
    requires 0 < k <= |d|
    ensures Groups(d, k).1 == RunAt(d, k - 1)
  {
    if k > 1 {
      LastGroup(d, k - 1);
    }
  }

  /** A value is among the groups when it is a closed group or the open one. */
  lemma InClosedOrOpen(closed: seq<nat>, count: nat, x: nat)
    ensures x in closed + [count] <==> x in closed || x == count
  {
  }

  /** One more digit closes at most one more group: the one ending just before it. */
  lemma ClosedExtend(d: seq<nat>, k: nat, n: nat)
    requires 1 < k <= |d|
    ensures HasClosedGroup(d, k, n) <==> HasClosedGroup(d, k - 1, n) || Closes(d, k, k - 2, n)
  {
    if HasClosedGroup(d, k - 1, n) {
      var e: nat :| Closes(d, k - 1, e, n);
      assert Closes(d, k, e, n);
    }
    if HasClosedGroup(d, k, n) {
      var e: nat :| Closes(d, k, e, n);
      assert e == k - 2 || Closes(d, k - 1, e, n);
    }
  }

  /** The closed groups are the lengths of the groups that a different digit follows. */
  lemma {:induction false} ClosedGroups(d: seq<nat>, k: nat, n: nat)
    requires 0 < k <= |d|
    ensures n in Groups(d, k).0 <==> HasClosedGroup(d, k, n)
  {
    if k > 1 {
      ClosedGroups(d, k - 1, n);
      ClosedExtend(d, k, n);
      if d[k - 1] != d[k - 2] {
        InClosedOrOpen(Groups(d, k - 1).0, Groups(d, k - 1).1, n);
        LastGroup(d, k - 1);
      }
    }
  }

  /** A group of exactly two that ends a group stands alone. */
  lemma RunOfTwo(d: seq<nat>, e: nat)
    requires e < |d| && RunAt(d, e) == 2 && (e + 1 == |d| || d[e] != d[e + 1])
    ensures e >= 1 && PairAlone(d, e - 1)
  {
    assert e > 0 && d[e - 1] == d[e] && RunAt(d, e - 1) == 1;
  }

  /** A group exactly two long is a pair of equal digits standing alone. */
  lemma TwoStandsAlone(d: seq<nat>) returns (i: nat)
    requires |d| > 0 && 2 in Runs(d)
    ensures PairAlone(d, i)
  {
    InClosedOrOpen(Groups(d, |d|).0, Groups(d, |d|).1, 2);
    if 2 in Groups(d, |d|).0 {
      ClosedGroups(d, |d|, 2);
      var e: nat :| Closes(d, |d|, e, 2);
      RunOfTwo(d, e);
      i := e - 1;
    } else {
      LastGroup(d, |d|);
      RunOfTwo(d, |d| - 1);
      i := |d| - 2;
    }
  }

  /** A pair of equal digits standing alone is a group exactly two long. */
  lemma AloneIsTwo(d: seq<nat>, i: nat)
    requires PairAlone(d, i)
    ensures 2 in Runs(d)
  {
    InClosedOrOpen(Groups(d, |d|).0, Groups(d, |d|).1, 2);
    assert RunAt(d, i + 1) == 2;
    if i + 2 < |d| {
      assert Closes(d, |d|, i + 1, 2);
      ClosedGroups(d, |d|, 2);
    } else {
      LastGroup(d, |d|);
    }
  }

  /** Some group is exactly two long exactly when some pair of equal digits stands alone. */
  lemma ExactlyTwo(d: seq<nat>)
    requires |d| > 0
    ensures 2 in Runs(d) <==> exists i: nat :: PairAlone(d, i)
  {
    if 2 in Runs(d) {
      var i := TwoStandsAlone(d);
    }
    if exists i: nat :: PairAlone(d, i) {
      var i: nat :| PairAlone(d, i);
      AloneIsTwo(d, i);
    }
  }

  /** The groups cover the digits scanned: each is at least one long and together they are `k` long. */
  lemma {:induction false} GroupsCover(d: seq<nat>, k: nat)
    requires 0 < k <= |d|
    ensures Groups(d, k).1 >= 1 && forall m | 0 <= m < |Groups(d, k).0| :: Groups(d, k).0[m] >= 1
    ensures Sum(Groups(d, k).0) + Groups(d, k).1 == k
  {
    if k > 1 {
      var (closed, count) := Groups(d, k - 1);
      GroupsCover(d, k - 1);
      if d[k - 1] != d[k - 2] {
        assert (closed + [count])[..|closed|] == closed;
      }
    }
  }

  /** Hence the groups `adjacentRuns` ends with are positive and add up to the number of digits. */
  lemma RunsCover(d: seq<nat>)
    requires |d| > 0
    ensures forall m | 0 <= m < |Runs(d)| :: Runs(d)[m] >= 1
    ensures Sum(Runs(d)) == |d|
  {
    GroupsCover(d, |d|);
    var r := Runs(d);
    assert r[..|r| - 1] == Groups(d, |d|).0;
  }

  /** Every number part 2 allows, part 1 allows too. */
  lemma StricterRule(d: seq<nat>)
    requires |d| > 0 && Allowed2(d)
    ensures Allowed(d)
  {
    var i := TwoStandsAlone(d);
    assert PairAt(d, i + 1);
  }

  /** A digit smaller than the one before it fails both rules. */
  lemma Decrease(d: seq<nat>, k: nat)
    requires 0 < k < |d| && d[k] < d[k - 1]
    ensures !Allowed(d) && !Allowed2(d)
  {
    assert d[k - 1] > d[k];
  }

  /** A single digit has one group, one long, and no pair. */
  lemma OneDigit(d: seq<nat>)
    requires |d| == 1
    ensures Groups(d, 1) == ([], 1) && !Allowed(d) && !Allowed2(d)
  {
  }

  // The checks of AOC19-04.js, digit by digit

  /**
   * The part 1 check: scans the text of the number once, stopping at the
   * first decrease. A number of one digit reads NaN after its digit, which
   * is neither below nor equal to it, and is refused for want of a pair.
   */
  method IsAllowedPassword(value: nat) returns (allowed: bool)
    ensures allowed <==> Allowed(DigitsOf(value))
  {
    var text := Digits(value);
    TextReads(value);
    allowed := ScanPairs(text, DigitsOf(value));
  }

  /** The do-while loop of the part 1 check, over a text that reads as the digits `d`. */
  method ScanPairs(text: string, ghost d: seq<nat>) returns (allowed: bool)
    requires |d| > 0 && Reads(text, d)
    ensures allowed <==> Allowed(d)
  {
    var lastDigit := DigitAt(text, 0);
    var index := 1;
    var hasSameAdjacentDigits := false;
    while true
      invariant 1 <= index <= |d| && (index == 1 || index < |d|)
      invariant lastDigit == Some(d[index - 1])
      invariant OrderedTo(d, index)
      invariant hasSameAdjacentDigits <==> PairBefore(d, index)
      decreases |d| - index
    {
      var digit := DigitAt(text, index);
      if Below(digit, lastDigit) {
        Decrease(d, index);
        return false;
      } else if Same(digit, lastDigit) {
        hasSameAdjacentDigits := true;
        assert PairAt(d, index);
      }
      if digit.None? {
        OneDigit(d);
        return hasSameAdjacentDigits;
      }
      index := index + 1;
      lastDigit := digit;
      if !(index < |text|) {
        break;
      }
    }
    return hasSameAdjacentDigits;
  }

  /**
   * The part 2 check: the same scan, collecting the group lengths as it
   * goes. A number of one digit reads NaN after its digit, which closes the
   * group, so its groups come out as `[1, 1]`; neither holds a 2.
   */
  method IsAllowedPassword2(value: nat) returns (allowed: bool)
    ensures allowed <==> Allowed2(DigitsOf(value))
  {
    var text := Digits(value);
    TextReads(value);
    allowed := ScanGroups(text, DigitsOf(value));
  }

  /** The do-while loop of the part 2 check, over a text that reads as the digits `d`. */
  method ScanGroups(text: string, ghost d: seq<nat>) returns (allowed: bool)
    requires |d| > 0 && Reads(text, d)
    ensures allowed <==> Allowed2(d)
  {
    var lastDigit := DigitAt(text, 0);
    var index := 1;
    var adjacentRuns: seq<nat> := [];
    var adjacentCount: nat := 1;
    while true
      invariant 1 <= index <= |d| && (index == 1 || index < |d|)
      invariant lastDigit == Some(d[index - 1])
      invariant OrderedTo(d, index)
      invariant (adjacentRuns, adjacentCount) == Groups(d, index)
      decreases |d| - index
    {
      var digit := DigitAt(text, index);
      if Below(digit, lastDigit) {
        Decrease(d, index);
        return false;
      } else if Same(digit, lastDigit) {
        adjacentCount := adjacentCount + 1;
      } else {
        adjacentRuns := adjacentRuns + [adjacentCount];
        adjacentCount := 1;
      }
      if digit.None? {
        OneDigit(d);
        adjacentRuns := adjacentRuns + [adjacentCount];
        assert adjacentRuns == [1, 1] && 2 !in adjacentRuns;
        return 2 in adjacentRuns;
      }
      index := index + 1;
      lastDigit := digit;
      if !(index < |text|) {
        break;
      }
    }
    adjacentRuns := adjacentRuns + [adjacentCount];
    return 2 in adjacentRuns;
  }

  // The loops over the puzzle's range

  /** Which of the two checks a loop applies. */
  datatype Rule = Adjacent | ExactPair

  predicate Accepts(rule: Rule, value: nat) {
    match rule
    case Adjacent => Allowed(DigitsOf(value))
    case ExactPair => Allowed2(DigitsOf(value))
  }

  /** The puzzle's range of numbers, both ends included. */
  const Low := 382345
  const High := 843167

  /** The numbers from `low` to `high` that the rule accepts. */
  ghost function AllowedSet(rule: Rule, low: nat, high: nat): set<nat> {
    set value: nat | low <= value <= high && Accepts(rule, value)
  }

  predicate Increasing(s: seq<nat>) {
    forall i, j | 0 <= i < j < |s| :: s[i] < s[j]
  }

  /**
   * The loop that pushes every number of the range its check allows: the
   * result lists exactly the accepted numbers, in increasing order.
   */
  method CollectAllowed(rule: Rule, low: nat, high: nat) returns (allowed: seq<nat>)
    ensures Increasing(allowed)
    ensures forall value :: value in allowed <==> low <= value <= high && Accepts(rule, value)
  {
    allowed := [];
    var i := low;
    while i <= high
      invariant low <= i <= if low <= high then high + 1 else low
      invariant Increasing(allowed)
      invariant forall k | 0 <= k < |allowed| :: allowed[k] < i
      invariant forall value :: value in allowed <==> low <= value < i && Accepts(rule, value)
    {
      var ok;
      if rule == Adjacent {
        ok := IsAllowedPassword(i);
      } else {
        ok := IsAllowedPassword2(i);
      }
      if ok {
        allowed := allowed + [i];
      }
      i := i + 1;
    }
  }

  /** Both puzzle answers: every number the exact-pair rule accepts, the adjacent rule accepts too. */
  lemma FewerExactPairs(low: nat, high: nat)
    ensures AllowedSet(ExactPair, low, high) <= AllowedSet(Adjacent, low, high)
  {
    forall value | value in AllowedSet(ExactPair, low, high)
      ensures value in AllowedSet(Adjacent, low, high)
    {
      StricterRule(DigitsOf(value));
    }
  }
}
