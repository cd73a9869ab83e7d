/** Decimal rendering of integers (Python's `str` of an int, C++'s `std::to_string`)
    and comma-separated lists, with the parsers that invert them. */
module Strings {

  predicate IsDigit(c: char) { '0' <= c <= '9' }

  predicate AllDigits(s: string)
  {
    forall i :: 0 <= i < |s| ==> IsDigit(s[i])
  }

  function DigitChar(d: nat): (c: char)
    requires d < 10
    ensures IsDigit(c)
  {
    "0123456789"[d]
  }

  function DigitValue(c: char): (d: nat)
    requires IsDigit(c)
    ensures d < 10
  {
    (c as int - '0' as int) as nat
  }

  lemma DigitRoundTrip(d: nat)
    requires d < 10
    ensures DigitValue(DigitChar(d)) == d
  {}

  /** Decimal digits of `n`, most significant first, without leading zeros. */
  function NatToString(n: nat): (s: string)
    ensures 0 < |s| && AllDigits(s)
    ensures s[0] == '0' ==> n == 0
  {
    if n < 10 then [DigitChar(n)] else NatToString(n / 10) + [DigitChar(n % 10)]
  }

  /** Decimal rendering of any integer: a minus sign before the digits of a
      negative number. */
  function IntToString(i: int): (s: string)
    ensures 0 < |s|
    ensures i >= 0 ==> s == NatToString(i)
    ensures i < 0 ==> s[0] == '-' && s[1..] == NatToString(-i)
  {
    if i >= 0 then NatToString(i) else "-" + NatToString(-i)
  }

  /** The value of a string of decimal digits; the empty string reads as 0. */
  function ParseNat(s: string): nat
    requires AllDigits(s)
  {
    if |s| == 0 then 0 else ParseNat(s[..|s| - 1]) * 10 + DigitValue(s[|s| - 1])
  }

  /** Reading back the digits of `n` gives `n`. */
  lemma {:induction false} ParseNatToString(n: nat)
    ensures ParseNat(NatToString(n)) == n
  {
    var s := NatToString(n);
    if n < 10 {
      DigitRoundTrip(n);
    } else {
      ParseNatToString(n / 10);
      assert s[..|s| - 1] == NatToString(n / 10);
      DigitRoundTrip(n % 10);
    }
  }

  /** Different numbers have different renderings. */
  lemma NatToStringInjective(m: nat, n: nat)
    ensures NatToString(m) == NatToString(n) ==> m == n
  {
    ParseNatToString(m);
    ParseNatToString(n);
  }

  function Repeat(c: char, k: nat): (s: string)
    ensures |s| == k && forall i :: 0 <= i < k ==> s[i] == c
  {
    if k == 0 then [] else Repeat(c, k - 1) + [c]
  }

  /** Leading zeros do not change a decimal value. */
  lemma {:induction false} LeadingZeros(k: nat, s: string)
    requires AllDigits(s)
    ensures AllDigits(Repeat('0', k) + s)
    ensures ParseNat(Repeat('0', k) + s) == ParseNat(s)
  {
    var z := Repeat('0', k);
    if |s| == 0 {
      assert z + s == z;
      ZerosReadZero(k);
    } else {
      LeadingZeros(k, s[..|s| - 1]);
      assert (z + s)[..|z + s| - 1] == z + s[..|s| - 1];
    }
  }

  lemma {:induction false} ZerosReadZero(k: nat)
    ensures AllDigits(Repeat('0', k)) && ParseNat(Repeat('0', k)) == 0
  {
    if k > 0 {
      ZerosReadZero(k - 1);
      assert Repeat('0', k)[..k - 1] == Repeat('0', k - 1);
    }
  }

  function Pow10(k: nat): (p: nat)
    ensures 0 < p
  {
    if k == 0 then 1 else 10 * Pow10(k - 1)
  }

  /** A number below 10^k takes at most k digits. */
  lemma {:induction false} DigitsBelowPower(n: nat, k: nat)
    requires 0 < k && n < Pow10(k)
    ensures |NatToString(n)| <= k
  {
    if n >= 10 {
      assert 1 < k;
      DigitsBelowPower(n / 10, k - 1);
    }
  }

  /** `xs` with a comma after each element. */
  function Terminated(xs: seq<string>): (s: string)
    ensures |s| >= |xs|
  {
    if |xs| == 0 then "" else xs[0] + "," + Terminated(xs[1..])
  }

  /** `xs` with a comma between neighbouring elements. */
  function Joined(xs: seq<string>): string
    requires 0 < |xs|
  {
    if |xs| == 1 then xs[0] else xs[0] + "," + Joined(xs[1..])
  }

  lemma Associative(a: string, b: string, c: string)
    ensures a + (b + c) == a + b + c
  {}

  lemma {:induction false} TerminatedAppend(xs: seq<string>, x: string)
    ensures Terminated(xs + [x]) == Terminated(xs) + x + ","
  {
    if |xs| == 0 {
      assert xs + [x] == [x];
    } else {
      var head, rest := xs[0] + ",", Terminated(xs[1..]);
      TerminatedAppend(xs[1..], x);
      assert (xs + [x])[1..] == xs[1..] + [x];
      assert Terminated(xs + [x]) == head + (rest + x + ",");
      Associative(head, rest + x, ",");
      Associative(head, rest, x);
    }
  }

  /** Dropping the last comma of a comma-terminated list joins it. */
  lemma {:induction false} TerminatedDropLast(xs: seq<string>)
    requires 0 < |xs|
    ensures 0 < |Terminated(xs)| && Terminated(xs)[..|Terminated(xs)| - 1] == Joined(xs)
  {
    if |xs| > 1 {
      TerminatedDropLast(xs[1..]);
      var rest := Terminated(xs[1..]);
      assert Terminated(xs) == xs[0] + "," + rest;
      assert (xs[0] + "," + rest)[..|xs[0] + "," + rest| - 1] == xs[0] + "," + rest[..|rest| - 1];
    }
  }

  predicate NoComma(s: string)
  {
    forall i :: 0 <= i < |s| ==> s[i] != ','
  }

  /** Index of the first comma in `s`, or |s| when it has none. */
  function CommaAt(s: string): (k: nat)
    ensures k <= |s| && NoComma(s[..k]) && (k < |s| ==> s[k] == ',')
  {
    if |s| == 0 || s[0] == ',' then 0
    else
      var k := 1 + CommaAt(s[1..]);
      assert s[..k] == [s[0]] + s[1..][..k - 1];
      k
  }

  /** The pieces of `s` between commas; a string without a comma is one piece. */
  function Split(s: string): (r: seq<string>)
    ensures 0 < |r|
    decreases |s|
  {
    var k := CommaAt(s);
    if k == |s| then [s] else [s[..k]] + Split(s[k + 1..])
  }

  lemma CommaAfter(x: string, rest: string)
    requires NoComma(x)
    ensures CommaAt(x + "," + rest) == |x|
    ensures (x + "," + rest)[..|x|] == x && (x + "," + rest)[|x| + 1..] == rest
  {
    if |x| > 0 {
      CommaAfter(x[1..], rest);
      assert (x + "," + rest)[1..] == x[1..] + "," + rest;
    }
  }

  lemma SplitHead(x: string, rest: string)
    requires NoComma(x)
    ensures Split(x + "," + rest) == [x] + Split(rest)
  {
    CommaAfter(x, rest);
  }

  lemma SplitSingle(x: string)
    requires NoComma(x)
    ensures Split(x) == [x]
  {
    assert x[..|x|] == x;
  }

  /** No piece holds a comma. Stated piece by piece, so that a proof looks only
      at the pieces it names. */
  predicate CommaFree(xs: seq<string>)
  {
    |xs| == 0 || (NoComma(xs[0]) && CommaFree(xs[1..]))
  }

  lemma {:induction false} CommaFreeEach(xs: seq<string>)
    requires forall i :: 0 <= i < |xs| ==> NoComma(xs[i])
    ensures CommaFree(xs)
  {
    if |xs| > 0 {
      assert forall i :: 0 <= i < |xs| - 1 ==> xs[1..][i] == xs[i + 1];
      CommaFreeEach(xs[1..]);
    }
  }

  /** Splitting a joined list of comma-free pieces gives the pieces back. */
  lemma {:induction false} SplitJoined(xs: seq<string>)
    requires 0 < |xs| && CommaFree(xs)
    ensures Split(Joined(xs)) == xs
  {
    if |xs| == 1 {
      SplitSingle(xs[0]);
    } else {
      SplitJoined(xs[1..]);
      SplitHead(xs[0], Joined(xs[1..]));
      assert xs == [xs[0]] + xs[1..];
    }
  }

  /** Splitting a comma-terminated list of comma-free pieces gives the pieces
      followed by one empty piece after the last comma. */
  lemma {:induction false} SplitTerminated(xs: seq<string>)
    requires CommaFree(xs)
    ensures Split(Terminated(xs)) == xs + [""]
  {
    if |xs| == 0 {
      SplitSingle("");
    } else {
      var rest := Terminated(xs[1..]);
      SplitTerminated(xs[1..]);
      SplitHead(xs[0], rest);
      assert Terminated(xs) == xs[0] + "," + rest;
      assert xs + [""] == [xs[0]] + (xs[1..] + [""]);
    }
  }
}
