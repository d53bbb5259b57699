/** The string operations the client relies on: PHP's conversion of an integer
    to its decimal text (`sprintf('%s', $int)`), `implode(',', ...)` with its
    inverse, and searching a string for a character. */
module Text {
  import opened Results

  predicate IsDigit(c: char) {
    '0' <= c <= '9'
  }

  predicate IsDigits(s: string) {
    forall i :: 0 <= i < |s| ==> IsDigit(s[i])
  }

  /** The decimal text of some integer: digits, optionally after one minus sign. */
  predicate IsDecimal(s: string) {
    (|s| >= 1 && IsDigits(s)) || (|s| >= 2 && s[0] == '-' && IsDigits(s[1..]))
  }

  /** The decimal text PHP prints: no leading zero except for "0" itself, and no "-0". */
  predicate IsCanonicalDecimal(s: string) {
    IsDecimal(s) &&
    (s[0] == '0' ==> s == "0") &&
    (s[0] == '-' ==> s[1] != '0')
  }

  function DigitValue(c: char): nat
    requires IsDigit(c)
  {
    (c as int) - ('0' as int)
  }

  function DigitChar(d: nat): (c: char)
    requires d < 10
    ensures IsDigit(c) && DigitValue(c) == d
  {
    (('0' as int) + d) as char
  }

  /** The decimal digits of a natural number, without leading zeros. */
  function NatToDecimal(n: nat): (s: string)
    ensures |s| >= 1 && IsDigits(s)
    ensures s[0] == '0' <==> n == 0
    ensures n == 0 ==> s == "0"
    decreases n
  {
    if n < 10 then [DigitChar(n)] else NatToDecimal(n / 10) + [DigitChar(n % 10)]
  }

  /** How PHP prints an integer: a minus sign for negative values, then the digits. */
  function IntToDecimal(n: int): (s: string)
    ensures IsCanonicalDecimal(s)
    ensures s[0] == '-' <==> n < 0
  {
    if n < 0 then "-" + NatToDecimal(-n) else NatToDecimal(n)
  }

  function ParseDigits(s: string): nat
    requires IsDigits(s)
    decreases |s|
  {
    if s == [] then 0 else 10 * ParseDigits(s[..|s| - 1]) + DigitValue(s[|s| - 1])
  }

  /** The integer a decimal text denotes. */
  function ParseDecimal(s: string): int
    requires IsDecimal(s)
  {
    if s[0] == '-' then 0 - ParseDigits(s[1..]) else ParseDigits(s)
  }

  lemma {:induction false} ParseNatToDecimal(n: nat)
    ensures ParseDigits(NatToDecimal(n)) == n
    decreases n
  {
    if n >= 10 {
      var s := NatToDecimal(n);
      assert s[..|s| - 1] == NatToDecimal(n / 10);
      ParseNatToDecimal(n / 10);
    }
  }

  /** Printing an integer loses nothing: parsing the text gives the integer back. */
  lemma DecimalRoundTrip(n: int)
    ensures ParseDecimal(IntToDecimal(n)) == n
  {
    if n < 0 {
      assert IntToDecimal(n)[1..] == NatToDecimal(-n);
      ParseNatToDecimal(-n);
    } else {
      ParseNatToDecimal(n);
    }
  }

  /** Two integers print the same exactly when they are equal. */
  lemma DecimalInjective(a: int, b: int)
    ensures IntToDecimal(a) == IntToDecimal(b) <==> a == b
  {
    DecimalRoundTrip(a);
    DecimalRoundTrip(b);
  }

  /** A decimal text never contains a character other than digits and '-'. */
  lemma DecimalHasNo(s: string, c: char)
    requires IsDecimal(s)
    requires !IsDigit(c) && c != '-'
    ensures c !in s
  {
  }

  /** The first position of `c` in `s`, if any. */
  function IndexOf(s: string, c: char): (r: Option<nat>)
    ensures r.None? <==> c !in s
    ensures r.Some? ==> r.value < |s| && s[r.value] == c && c !in s[..r.value]
    decreases |s|
  {
    if |s| == 0 then None
    else if s[0] == c then Some(0)
    else match IndexOf(s[1..], c)
      case None => None
      case Some(i) =>
        assert s[..i + 1] == [s[0]] + s[1..][..i];
        Some(i + 1)
  }

  /** The last position of `c` in `s`, if any. */
  function LastIndexOf(s: string, c: char): (r: Option<nat>)
    ensures r.None? <==> c !in s
    ensures r.Some? ==> r.value < |s| && s[r.value] == c && c !in s[r.value + 1..]
    decreases |s|
  {
    if |s| == 0 then None
    else if s[|s| - 1] == c then Some(|s| - 1)
    else match LastIndexOf(s[..|s| - 1], c)
      case None => None
      case Some(i) =>
        assert s[i + 1..] == s[..|s| - 1][i + 1..] + [s[|s| - 1]];
        Some(i)
  }

  /** The separator inserted after `u` is the last one when `t` holds none. */
  lemma LastIndexAfterPrefix(u: string, c: char, t: string)
    requires c !in t
    ensures LastIndexOf(u + [c] + t, c) == Some(|u|)
  {
    var s := u + [c] + t;
    assert s[|u|] == c;
    assert s[|u| + 1..] == t;
  }

  /** The separator inserted after `u` is the first one when `u` holds none. */
  lemma IndexAfterPrefix(u: string, c: char, t: string)
    requires c !in u
    ensures IndexOf(u + [c] + t, c) == Some(|u|)
  {
    var s := u + [c] + t;
    assert s[|u|] == c;
    assert s[..|u|] == u;
  }

  /** PHP's `implode`: the parts with `sep` between consecutive ones. */
  function Join(parts: seq<string>, sep: char): (r: string)
    ensures |parts| >= 1 ==> |r| >= |parts[0]| && r[..|parts[0]|] == parts[0]
    decreases |parts|
  {
    if |parts| == 0 then ""
    else if |parts| == 1 then parts[0]
    else parts[0] + [sep] + Join(parts[1..], sep)
  }

  /** `Join` puts exactly one separator between consecutive items. */
  lemma {:induction false} JoinSeparatorCount(parts: seq<string>, sep: char)
    requires forall i :: 0 <= i < |parts| ==> sep !in parts[i]
    ensures multiset(Join(parts, sep))[sep] == if |parts| == 0 then 0 else |parts| - 1
    decreases |parts|
  {
    if |parts| > 1 {
      JoinSeparatorCount(parts[1..], sep);
      assert multiset(parts[0] + [sep] + Join(parts[1..], sep))
        == multiset(parts[0]) + multiset([sep]) + multiset(Join(parts[1..], sep));
    }
  }

  /** The inverse of `Join`: the pieces of `s` between occurrences of `sep`. */
  function Split(s: string, sep: char): (parts: seq<string>)
    ensures |parts| >= 1
    ensures forall i :: 0 <= i < |parts| ==> sep !in parts[i]
    decreases |s|
  {
    match IndexOf(s, sep)
    case None => [s]
    case Some(i) => [s[..i]] + Split(s[i + 1..], sep)
  }

  /** Joining a non-empty list whose items do not contain the separator and
      splitting the text again gives the list back, in the same order. */
  lemma {:induction false} SplitJoin(parts: seq<string>, sep: char)
    requires |parts| >= 1
    requires forall i :: 0 <= i < |parts| ==> sep !in parts[i]
    ensures Split(Join(parts, sep), sep) == parts
    decreases |parts|
  {
    if |parts| > 1 {
      var head, rest := parts[0], Join(parts[1..], sep);
      var s := head + [sep] + rest;
      assert Join(parts, sep) == s;
      assert sep !in head;
      IndexAfterPrefix(head, sep, rest);
      assert s[..|head|] == head;
      assert s[|head| + 1..] == rest;
      assert Split(s, sep) == [head] + Split(rest, sep);
      SplitJoin(parts[1..], sep);
      assert parts == [head] + parts[1..];
    }
  }

  /** Splitting any text and joining the pieces gives the text back. */
  lemma {:induction false} JoinSplit(s: string, sep: char)
    ensures Join(Split(s, sep), sep) == s
    decreases |s|
  {
    match IndexOf(s, sep)
    case None =>
    case Some(i) =>
      JoinSplit(s[i + 1..], sep);
      var parts := Split(s, sep);
      assert parts[1..] == Split(s[i + 1..], sep);
      assert s == s[..i] + [sep] + s[i + 1..];
  }
}
