/**
 * The JavaScript string operations that the reaction list's parser and
 * printer (AOC19-14.js) rely on: `trim`, `split` with a string separator,
 * `Array.prototype.join`, `parseInt` without a radix, and the decimal
 * form of an integer that `+` produces when it meets a string.
 */
module Text {
  import opened Wrappers

  /** `WhiteSpace` or `LineTerminator` (sections 12.2 and 12.3 of ECMA-262): what `trim` removes. */
  predicate IsSpace(c: char) {
    c == '\t' || c == '\n' || c == '\U{000B}' || c == '\U{000C}' || c == '\r' || c == ' ' ||
    c == '\U{00A0}' || c == '\U{1680}' || '\U{2000}' <= c <= '\U{200A}' || c == '\U{2028}' ||
    c == '\U{2029}' || c == '\U{202F}' || c == '\U{205F}' || c == '\U{3000}' || c == '\U{FEFF}'
  }

  /** `s.trimStart()`. */
  function TrimStart(s: string): string {
    if |s| > 0 && IsSpace(s[0]) then TrimStart(s[1..]) else s
  }

  /** `s.trimEnd()`. */
  function TrimEnd(s: string): string {
    if |s| > 0 && IsSpace(s[|s| - 1]) then TrimEnd(s[..|s| - 1]) else s
  }

  /** `trimStart` drops exactly the white space at the start: what remains is a suffix that does not start with white space. */
  lemma {:induction false} TrimStartDrops(s: string)
    ensures var r := TrimStart(s); |r| <= |s| && r == s[|s| - |r|..]
    ensures var r := TrimStart(s); |r| > 0 ==> !IsSpace(r[0])
    ensures var r := TrimStart(s); forall i | 0 <= i < |s| - |r| :: IsSpace(s[i])
    decreases |s|
  {
    if |s| > 0 && IsSpace(s[0]) {
      TrimStartDrops(s[1..]);
    }
  }

  /** `trimEnd` drops exactly the white space at the end: what remains is a prefix that does not end with white space. */
  lemma {:induction false} TrimEndDrops(s: string)
    ensures var r := TrimEnd(s); |r| <= |s| && r == s[..|r|]
    ensures var r := TrimEnd(s); |r| > 0 ==> !IsSpace(r[|r| - 1])
    ensures var r := TrimEnd(s); forall i | |r| <= i < |s| :: IsSpace(s[i])
    decreases |s|
  {
    if |s| > 0 && IsSpace(s[|s| - 1]) {
      TrimEndDrops(s[..|s| - 1]);
    }
  }

  /** `s.trim()`: without its leading and trailing white space. */
  function Trim(s: string): string {
    TrimEnd(TrimStart(s))
  }

  /** A string that neither starts nor ends with white space is its own trim. */
  lemma TrimmedAlready(s: string)
    requires |s| > 0 ==> !IsSpace(s[0]) && !IsSpace(s[|s| - 1])
    ensures Trim(s) == s
  { }

  /** Leading white space goes, and a string that then has none at either end is left as it is. */
  lemma TrimLeading(space: string, s: string)
    requires forall i | 0 <= i < |space| :: IsSpace(space[i])
    requires |s| > 0 && !IsSpace(s[0]) && !IsSpace(s[|s| - 1])
    ensures Trim(space + s) == s
  {
    if |space| > 0 {
      assert (space + s)[1..] == space[1..] + s;
      TrimLeading(space[1..], s);
    }
  }

  /** Trailing white space goes, and a string that then has none at either end is left as it is. */
  lemma TrimTrailing(s: string, space: string)
    requires forall i | 0 <= i < |space| :: IsSpace(space[i])
    requires |s| > 0 && !IsSpace(s[0]) && !IsSpace(s[|s| - 1])
    ensures Trim(s + space) == s
  {
    assert TrimStart(s + space) == s + space;
    TrimEndOf(s, space);
  }

  lemma TrimEndOf(s: string, space: string)
    requires forall i | 0 <= i < |space| :: IsSpace(space[i])
    requires |s| > 0 && !IsSpace(s[|s| - 1])
    ensures TrimEnd(s + space) == s
  {
    if |space| > 0 {
      assert (s + space)[..|s + space| - 1] == s + space[..|space| - 1];
      TrimEndOf(s, space[..|space| - 1]);
    } else {
      assert s + space == s;
    }
  }

  /** `s.indexOf(sep)`: where `sep` first occurs in `s`, if anywhere. */
  function IndexOf(s: string, sep: string): (r: Option<nat>)
    requires |sep| > 0
    ensures r.Some? ==> r.value + |sep| <= |s| && s[r.value..r.value + |sep|] == sep
    decreases |s|
  {
    if |s| < |sep| then None
    else if s[..|sep|] == sep then Some(0)
    else match IndexOf(s[1..], sep)
      case None => None
      case Some(i) => Some(i + 1)
  }

  /** A string without the separator's first character does not contain it. */
  lemma IndexAbsent(s: string, sep: string)
    requires |sep| > 0 && sep[0] !in s
    ensures IndexOf(s, sep) == None
  {
    if |s| >= |sep| {
      assert s[..|sep|][0] == s[0];
      IndexAbsent(s[1..], sep);
    }
  }

  /** After a part without the separator's first character, the separator is found right where it is put. */
  lemma IndexAfter(a: string, sep: string, b: string)
    requires |sep| > 0 && sep[0] !in a
    ensures IndexOf(a + sep + b, sep) == Some(|a|)
  {
    var s := a + sep + b;
    if |a| == 0 {
      assert s[..|sep|] == sep;
    } else {
      assert s[..|sep|][0] == a[0];
      assert s[1..] == a[1..] + sep + b;
      IndexAfter(a[1..], sep, b);
    }
  }

  /** `s.split(sep)` for a non-empty separator: the pieces between its occurrences, left to right. */
  function Split(s: string, sep: string): (parts: seq<string>)
    requires |sep| > 0
    ensures |parts| > 0
    decreases |s|
  {
    match IndexOf(s, sep)
    case None => [s]
    case Some(i) => [s[..i]] + Split(s[i + |sep|..], sep)
  }

  /** `parts.join(sep)`. */
  function Join(parts: seq<string>, sep: string): string {
    if |parts| == 0 then ""
    else if |parts| == 1 then parts[0]
    else parts[0] + sep + Join(parts[1..], sep)
  }

  /** Joining one more part puts the separator and the part at the end. */
  lemma {:induction false} JoinSnoc(parts: seq<string>, part: string, sep: string)
    requires |parts| > 0
    ensures Join(parts + [part], sep) == Join(parts, sep) + sep + part
    decreases |parts|
  {
    if |parts| == 1 {
      assert (parts + [part])[1..] == [part];
    } else {
      assert (parts + [part])[1..] == parts[1..] + [part];
      JoinSnoc(parts[1..], part, sep);
    }
  }

  /** A character that is in none of the parts and not in the separator is not in their join. */
  lemma {:induction false} JoinLacks(parts: seq<string>, sep: string, c: char)
    requires c !in sep && forall i | 0 <= i < |parts| :: c !in parts[i]
    ensures c !in Join(parts, sep)
    decreases |parts|
  {
    if |parts| > 1 {
      JoinLacks(parts[1..], sep, c);
    }
  }

  /** A join starts with the first part's first character and ends with the last part's last character. */
  lemma {:induction false} JoinEnds(parts: seq<string>, sep: string)
    requires |parts| > 0 && forall i | 0 <= i < |parts| :: |parts[i]| > 0
    ensures var s := Join(parts, sep); |s| > 0 && s[0] == parts[0][0] && s[|s| - 1] == parts[|parts| - 1][|parts[|parts| - 1]| - 1]
    decreases |parts|
  {
    if |parts| > 1 {
      JoinEnds(parts[1..], sep);
    }
  }

  /** Taking all of a sequence, or adding nothing to it, leaves it as it is. */
  lemma Whole<T>(s: seq<T>)
    ensures s[..|s|] == s && s + [] == s && [] + s == s
  { }

  /** A non-empty sequence is its elements but the last, then the last. */
  lemma Unsnoc<T>(s: seq<T>)
    requires |s| > 0
    ensures s[..|s| - 1] + [s[|s| - 1]] == s
  { }

  /** Taking one more element of a sequence: what came before, and the new element. */
  lemma Grow<T>(s: seq<T>, k: nat)
    requires k < |s|
    ensures s[..k + 1][..k] == s[..k] && s[..k + 1][k] == s[k]
  { }

  /** Appending is associative. */
  lemma Assoc<T>(a: seq<T>, b: seq<T>, c: seq<T>)
    ensures (a + b) + c == a + (b + c)
  { }

  /** The last element of a sequence with one more element, and what comes before it. */
  lemma Snoc<T>(s: seq<T>, x: T)
    ensures (s + [x])[..|s|] == s && (s + [x])[|s|] == x
  { }

  /** Joining pieces that lack the separator's first character and splitting again gives the pieces back. */
  lemma {:induction false} SplitJoin(parts: seq<string>, sep: string)
    requires |parts| > 0 && |sep| > 0
    requires forall i | 0 <= i < |parts| :: sep[0] !in parts[i]
    ensures Split(Join(parts, sep), sep) == parts
  {
    if |parts| == 1 {
      IndexAbsent(parts[0], sep);
    } else {
      var head, tail := parts[0], parts[1..];
      var rest := Join(tail, sep);
      var s := head + sep + rest;
      assert Join(parts, sep) == s;
      IndexAfter(head, sep, rest);
      assert s[..|head|] == head;
      assert s[|head| + |sep|..] == rest;
      assert Split(s, sep) == [head] + Split(rest, sep);
      SplitJoin(tail, sep);
      assert parts == [head] + tail;
    }
  }

  /** Splitting `a + sep + b`, where neither part has the separator's first character, gives the two parts. */
  lemma SplitTwo(a: string, sep: string, b: string)
    requires |sep| > 0 && sep[0] !in a && sep[0] !in b
    ensures Split(a + sep + b, sep) == [a, b]
  {
    SplitJoin([a, b], sep);
    assert Join([a, b], sep) == a + sep + Join([b], sep);
  }

  /** The character of a decimal digit. */
  function DigitChar(d: nat): char
    requires d < 10
  {
    "0123456789"[d]
  }

  /** The decimal digits of `n`, without leading zeros. */
  function Digits(n: nat): (s: string)
    ensures |s| > 0
    decreases n
  {
    if n < 10 then [DigitChar(n)] else Digits(n / 10) + [DigitChar(n % 10)]
  }

  /**
   * `'' + n` for an integer `n`: its decimal form, with a minus sign when
   * negative (JavaScript switches to exponent notation from 10^21 on, which
   * this does not model).
   */
  function Decimal(n: int): (s: string)
    ensures |s| > 0
  {
    if n < 0 then "-" + Digits(-n) else Digits(n)
  }

  /** Every character of the digits is a decimal digit, and the first is a zero only when it is the only one. */
  lemma {:induction false} DigitsAreDigits(n: nat)
    ensures forall i | 0 <= i < |Digits(n)| :: '0' <= Digits(n)[i] <= '9'
    ensures |Digits(n)| > 1 ==> Digits(n)[0] != '0'
    decreases n
  {
    if n >= 10 {
      DigitsAreDigits(n / 10);
      var head := Digits(n / 10);
      assert Digits(n) == head + [DigitChar(n % 10)];
    }
  }

  /** Every character of the decimal form is a digit or the minus sign. */
  lemma DecimalChars(n: int)
    ensures forall i | 0 <= i < |Decimal(n)| :: '0' <= Decimal(n)[i] <= '9' || Decimal(n)[i] == '-'
  {
    if n < 0 {
      DigitsAreDigits(-n);
      var d := Digits(-n);
      assert forall i | 1 <= i < |Decimal(n)| :: Decimal(n)[i] == d[i - 1];
    } else {
      DigitsAreDigits(n);
    }
  }

  /** The decimal form holds nothing but digits and the minus sign. */
  lemma DecimalLacks(n: int, c: char)
    requires !('0' <= c <= '9') && c != '-'
    ensures c !in Decimal(n)
  {
    var s := Decimal(n);
    DecimalChars(n);
    assert forall i | 0 <= i < |s| :: s[i] != c;
  }

  /** The decimal form neither starts nor ends with white space, so it is its own trim. */
  lemma DecimalTrimmed(n: int)
    ensures !IsSpace(Decimal(n)[0]) && !IsSpace(Decimal(n)[|Decimal(n)| - 1])
    ensures Trim(Decimal(n)) == Decimal(n)
  {
    var s := Decimal(n);
    DecimalChars(n);
    assert '0' <= s[0] <= '9' || s[0] == '-';
    assert '0' <= s[|s| - 1] <= '9' || s[|s| - 1] == '-';
    TrimmedAlready(s);
  }

  /** The value of a digit character in base 10 or 16, if it is one. */
  function DigitValue(c: char, radix: nat): Option<nat> {
    if '0' <= c <= '9' && (c as int) - ('0' as int) < radix then Some((c as int) - ('0' as int))
    else if radix == 16 && 'a' <= c <= 'f' then Some((c as int) - ('a' as int) + 10)
    else if radix == 16 && 'A' <= c <= 'F' then Some((c as int) - ('A' as int) + 10)
    else None
  }

  /** How many characters at the start of `s` are digits in `radix`. */
  function DigitRun(s: string, radix: nat): (n: nat)
    ensures n <= |s|
  {
    if |s| > 0 && DigitValue(s[0], radix).Some? then 1 + DigitRun(s[1..], radix) else 0
  }

  /** The number that a run of digits in `radix` stands for. */
  function ValueOf(digits: string, radix: nat): nat {
    if |digits| == 0 then 0
    else
      var last := DigitValue(digits[|digits| - 1], radix);
      ValueOf(digits[..|digits| - 1], radix) * radix + last.GetOr(0)
  }

  /** The unsigned part of `parseInt`: a hexadecimal run after `0x`/`0X`, else a decimal run; None when empty. */
  function ParseMagnitude(s: string): Option<nat> {
    var hex := |s| >= 2 && s[0] == '0' && (s[1] == 'x' || s[1] == 'X');
    var digits := if hex then s[2..] else s;
    var radix := if hex then 16 else 10;
    var n := DigitRun(digits, radix);
    if n == 0 then None else Some(ValueOf(digits[..n], radix))
  }

  /**
   * `parseInt(s)`: leading white space skipped, an optional sign, then the
   * longest run of digits; None is NaN. (Digits past 2^53 lose precision in
   * JavaScript; this model does not.)
   */
  function ParseInt(s: string): Option<int> {
    var t := TrimStart(s);
    if |t| > 0 && t[0] == '-' then
      match ParseMagnitude(t[1..])
      case None => None
      case Some(m) => Some(0 - m)
    else if |t| > 0 && t[0] == '+' then ParseMagnitude(t[1..])
    else ParseMagnitude(t)
  }

  lemma {:induction false} DigitsRun(n: nat)
    ensures DigitRun(Digits(n), 10) == |Digits(n)|
    ensures ValueOf(Digits(n), 10) == n
    decreases n
  {
    var s := Digits(n);
    DigitsAreDigits(n);
    AllDigitsRun(s);
    if n < 10 {
      assert DigitValue(s[0], 10) == Some(n);
      assert s[..0] == "";
    } else {
      var head := Digits(n / 10);
      DigitsRun(n / 10);
      assert s == head + [DigitChar(n % 10)];
      assert s[..|s| - 1] == head;
      assert DigitValue(s[|s| - 1], 10) == Some(n % 10);
      assert ValueOf(s, 10) == ValueOf(head, 10) * 10 + n % 10;
    }
  }

  lemma {:induction false} AllDigitsRun(s: string)
    requires forall i | 0 <= i < |s| :: '0' <= s[i] <= '9'
    ensures DigitRun(s, 10) == |s|
    decreases |s|
  {
    if |s| > 0 {
      AllDigitsRun(s[1..]);
    }
  }

  lemma MagnitudeOfDigits(m: nat)
    ensures ParseMagnitude(Digits(m)) == Some(m)
  {
    var d := Digits(m);
    DigitsRun(m);
    DigitsAreDigits(m);
    assert !(|d| >= 2 && d[0] == '0');
    assert d[..|d|] == d;
  }

  /** `parseInt` reads back the decimal form of any integer. */
  lemma ParseDecimal(n: int)
    ensures ParseInt(Decimal(n)) == Some(n)
  {
    if n < 0 {
      ParseNegative(n);
    } else {
      ParseNonNegative(n);
    }
  }

  lemma ParseNonNegative(m: nat)
    ensures ParseInt(Decimal(m)) == Some(m)
  {
    var s := Digits(m);
    assert Decimal(m) == s;
    DigitsAreDigits(m);
    assert !IsSpace(s[0]) && s[0] != '-' && s[0] != '+';
    assert TrimStart(s) == s;
    MagnitudeOfDigits(m);
  }

  lemma ParseNegative(n: int)
    requires n < 0
    ensures ParseInt(Decimal(n)) == Some(n)
  {
    var s := Decimal(n);
    var d := Digits(-n);
    assert s == "-" + d;
    assert !IsSpace(s[0]);
    var t := TrimStart(s);
    assert t == s;
    assert t[1..] == d;
    MagnitudeOfDigits(-n);
    assert ParseMagnitude(t[1..]) == Some(-n);
  }
}
