/** Decimal numbers, ISO dates and colon-separated fields as text. */
module Texts {
  import opened Options

  // ----- Numbers --------------------------------------------------------------------------------

  predicate IsDigit(c: char) {
    '0' <= c <= '9'
  }

  function DigitChar(d: nat): (c: char)
    requires d < 10
    ensures IsDigit(c) && DigitValue(c) == d
  {
    ('0' as int + d) as char
  }

  function DigitValue(c: char): (d: nat)
    requires IsDigit(c)
    ensures d < 10
  {
    c as int - '0' as int
  }

  predicate AllDigits(s: string) {
    forall i :: 0 <= i < |s| ==> IsDigit(s[i])
  }

  function NatText(n: nat): (s: string)
    ensures s != "" && AllDigits(s)
  {
    if n < 10 then [DigitChar(n)] else NatText(n / 10) + [DigitChar(n % 10)]
  }

  function DigitsValue(s: string): nat
    requires AllDigits(s)
  {
    if s == "" then 0 else 10 * DigitsValue(s[..|s| - 1]) + DigitValue(s[|s| - 1])
  }

  lemma {:induction false} NatTextValue(n: nat)
    ensures DigitsValue(NatText(n)) == n
  {
    var s := NatText(n);
    if n < 10 {
      assert s[..0] == "";
      assert DigitsValue(s[..0]) == 0;
    } else {
      NatTextValue(n / 10);
      assert s[..|s| - 1] == NatText(n / 10);
    }
  }

  function IntText(n: int): string {
    if n < 0 then "-" + NatText(-n) else NatText(n)
  }

  /** Python's `int` on ASCII text: an optional sign and one or more digits. */
  function ParseInt(s: string): Option<int> {
    if s != "" && s[0] == '-' then
      if s[1..] != "" && AllDigits(s[1..]) then Some(0 - DigitsValue(s[1..])) else None
    else if s != "" && s[0] == '+' then
      if s[1..] != "" && AllDigits(s[1..]) then Some(DigitsValue(s[1..])) else None
    else if s != "" && AllDigits(s) then Some(DigitsValue(s))
    else None
  }

  lemma IntTextParses(n: int)
    ensures ParseInt(IntText(n)) == Some(n)
    ensures NoColon(IntText(n))
  {
    if n < 0 {
      assert IntText(n)[1..] == NatText(-n);
      NatTextValue(-n);
    } else {
      NatTextValue(n);
      assert IsDigit(NatText(n)[0]);
    }
  }

  // ----- Dates ----------------------------------------------------------------------------------

  datatype Date = Date(year: int, month: int, day: int)

  predicate Leap(year: int) {
    year % 4 == 0 && (year % 100 != 0 || year % 400 == 0)
  }

  function DaysIn(year: int, month: int): int {
    if month == 2 then (if Leap(year) then 29 else 28)
    else if month == 4 || month == 6 || month == 9 || month == 11 then 30
    else 31
  }

  predicate ValidDate(d: Date) {
    1 <= d.year <= 9999 && 1 <= d.month <= 12 && 1 <= d.day <= DaysIn(d.year, d.month)
  }

  function TwoDigits(n: nat): (s: string)
    requires n < 100
    ensures |s| == 2 && AllDigits(s) && DigitsValue(s) == n
  {
    var s := [DigitChar(n / 10), DigitChar(n % 10)];
    assert s[..1] == [DigitChar(n / 10)] && s[..1][..0] == "";
    assert DigitsValue(s[..1]) == n / 10;
    s
  }

  /** `YYYY-MM-DD`. */
  function DateText(d: Date): (s: string)
    requires ValidDate(d)
    ensures |s| == 10
  {
    TwoDigits(d.year / 100) + TwoDigits(d.year % 100) + "-" + TwoDigits(d.month) + "-" + TwoDigits(d.day)
  }

  function ParseDate(s: string): Option<Date> {
    if |s| == 10 && s[4] == '-' && s[7] == '-' && AllDigits(s[..2]) && AllDigits(s[2..4]) && AllDigits(s[5..7])
        && AllDigits(s[8..])
    then
      var d := Date(100 * DigitsValue(s[..2]) + DigitsValue(s[2..4]), DigitsValue(s[5..7]), DigitsValue(s[8..]));
      if ValidDate(d) then Some(d) else None
    else None
  }

  lemma DateTextParses(d: Date)
    requires ValidDate(d)
    ensures ParseDate(DateText(d)) == Some(d)
    ensures NoColon(DateText(d))
  {
    var s := DateText(d);
    assert s[..2] == TwoDigits(d.year / 100);
    assert s[2..4] == TwoDigits(d.year % 100);
    assert s[5..7] == TwoDigits(d.month);
    assert s[8..] == TwoDigits(d.day);
    assert forall i :: 0 <= i < 10 ==> IsDigit(s[i]) || s[i] == '-';
  }

  // ----- Fields ---------------------------------------------------------------------------------

  predicate NoColon(s: string) {
    forall i :: 0 <= i < |s| ==> s[i] != ':'
  }

  /** The position of the first colon, or the length. */
  function FirstColon(s: string): (n: nat)
    ensures n <= |s| && NoColon(s[..n]) && (n < |s| ==> s[n] == ':')
  {
    if s == "" || s[0] == ':' then 0
    else
      var n := FirstColon(s[1..]);
      assert s[..n + 1] == [s[0]] + s[1..][..n];
      n + 1
  }

  /** Python's `split` on colons with at most `max` cuts. */
  function Split(s: string, max: nat): (fields: seq<string>)
    ensures 0 < |fields| <= max + 1
  {
    var n := FirstColon(s);
    if max == 0 || n == |s| then [s] else [s[..n]] + Split(s[n + 1..], max - 1)
  }

  function Join(fields: seq<string>): string
    requires fields != []
  {
    if |fields| == 1 then fields[0] else fields[0] + ":" + Join(fields[1..])
  }

  /** Fields without colons come back from a split with enough cuts. */
  lemma {:induction false} SplitJoin(fields: seq<string>, max: nat)
    requires fields != [] && |fields| <= max + 1
    requires forall i :: 0 <= i < |fields| ==> NoColon(fields[i])
    ensures Split(Join(fields), max) == fields
  {
    if |fields| == 1 {
      FirstColonAfter(fields[0], "");
    } else {
      var h, rest := fields[0], Join(fields[1..]);
      FirstColonAfter(h, ":" + rest);
      assert h + ":" + rest == h + (":" + rest);
      assert (h + ":" + rest)[..|h|] == h && (h + ":" + rest)[|h| + 1..] == rest;
      SplitJoin(fields[1..], max - 1);
    }
  }

  lemma FirstColonAfter(h: string, rest: string)
    requires NoColon(h) && (rest == "" || rest[0] == ':')
    ensures FirstColon(h + rest) == |h|
  {
    var s, n := h + rest, FirstColon(h + rest);
    assert forall i :: 0 <= i < |h| ==> s[i] == h[i] && s[i] != ':';
    assert forall i :: 0 <= i < n ==> s[..n][i] == s[i] && s[i] != ':';
    assert rest != "" ==> s[|h|] == ':';
  }

  predicate StartsWith(s: string, prefix: string) {
    |prefix| <= |s| && forall i :: 0 <= i < |prefix| ==> s[i] == prefix[i]
  }
}
