/**
 * The two conversions of Go's `strconv` package that the pid file relies on:
 * `Itoa` writes a process id as decimal text and `Atoi` reads it back.
 * Go's `int` is 64 bits wide on the platforms the daemon runs on, so both work on `Int64`.
 */
module Strconv {
  import opened Wrappers

  const MinInt64: int := -0x8000_0000_0000_0000
  const MaxInt64: int := 0x7fff_ffff_ffff_ffff

  type Int64 = x: int | MinInt64 <= x <= MaxInt64

  predicate IsDigit(c: char)
  {
    '0' <= c <= '9'
  }

  predicate AllDigits(s: string)
  {
    forall i :: 0 <= i < |s| ==> IsDigit(s[i])
  }

  function DigitValue(c: char): (d: nat)
    requires IsDigit(c)
    ensures d < 10
  {
    c as int - '0' as int
  }

  function DigitChar(d: nat): (c: char)
    requires d < 10
    ensures IsDigit(c) && DigitValue(c) == d
  {
    (d + '0' as int) as char
  }

  lemma DigitCharOfValue(c: char)
    requires IsDigit(c)
    ensures DigitChar(DigitValue(c)) == c
  {
  }

  /** A magnitude as Go prints it: at least one digit, and no leading zero unless it is "0". */
  predicate CanonicalMagnitude(t: string)
  {
    |t| >= 1 && AllDigits(t) && (|t| > 1 ==> t[0] != '0')
  }

  /** The text Itoa produces: a canonical magnitude, preceded by '-' for a negative value ("-0" excluded). */
  predicate Canonical(s: string)
  {
    CanonicalMagnitude(s)
    || (|s| >= 2 && s[0] == '-' && CanonicalMagnitude(s[1..]) && s[1..] != "0")
  }

  /** Decimal digits of `n`, most significant first. */
  function Digits(n: nat): (s: string)
    ensures CanonicalMagnitude(s)
    ensures s == "0" <==> n == 0
  {
    if n < 10 then [DigitChar(n)] else Digits(n / 10) + [DigitChar(n % 10)]
  }

  /** The value of a string of decimal digits, read most significant first (the empty string reads 0). */
  function ValueOf(t: string): (v: nat)
    requires AllDigits(t)
  {
    if t == [] then 0 else ValueOf(t[..|t| - 1]) * 10 + DigitValue(t[|t| - 1])
  }

  lemma {:induction false} ValueOfDigits(n: nat)
    ensures ValueOf(Digits(n)) == n
  {
    if n >= 10 {
      var s := Digits(n);
      assert s[..|s| - 1] == Digits(n / 10);
      ValueOfDigits(n / 10);
    }
  }

  /** A magnitude whose first digit is not zero is at least 1. */
  lemma {:induction false} ValueOfPositive(t: string)
    requires |t| >= 1 && AllDigits(t) && t[0] != '0'
    ensures ValueOf(t) >= 1
  {
    if |t| > 1 {
      ValueOfPositive(t[..|t| - 1]);
    }
  }

  lemma {:induction false} DigitsOfValue(t: string)
    requires CanonicalMagnitude(t)
    ensures Digits(ValueOf(t)) == t
  {
    var p, c := t[..|t| - 1], t[|t| - 1];
    DigitCharOfValue(c);
    if |t| > 1 {
      ValueOfPositive(p);
      assert CanonicalMagnitude(p);
      DigitsOfValue(p);
      var v := ValueOf(t);
      assert v / 10 == ValueOf(p) && v % 10 == DigitValue(c);
      assert t == p + [c];
    }
  }

  /** strconv.Itoa: the decimal text of `n`, with a leading '-' when `n` is negative. */
  function Itoa(n: Int64): (s: string)
    ensures Canonical(s)
    ensures |s| >= 1 && (s[0] == '-' <==> n < 0)
  {
    if n < 0 then "-" + Digits(-(n as int)) else Digits(n)
  }

  /** The part of `s` after an optional leading sign. */
  function Unsigned(s: string): (t: string)
    ensures |t| <= |s|
  {
    if |s| > 0 && (s[0] == '+' || s[0] == '-') then s[1..] else s
  }

  /**
   * strconv.Atoi: accepts an optional '+' or '-' followed by one or more decimal digits
   * (leading zeros allowed) whose value fits in an Int64; anything else is an error.
   * The two Go error kinds (syntax, range) are both reported as None.
   */
  function Atoi(s: string): (r: Option<Int64>)
    ensures r.Some? ==> |Unsigned(s)| >= 1 && AllDigits(Unsigned(s))
    ensures r.Some? ==> (r.value < 0 ==> s[0] == '-')
  {
    var t := Unsigned(s);
    if t == [] || !AllDigits(t) then None
    else
      var magnitude: int := ValueOf(t);
      var v := if s[0] == '-' then -magnitude else magnitude;
      if MinInt64 <= v <= MaxInt64 then Some(v) else None
  }

  /** What StartDaemon writes, StopDaemon reads back: Atoi inverts Itoa on every Int64. */
  lemma AtoiItoa(n: Int64)
    ensures Atoi(Itoa(n)) == Some(n)
  {
    var s := Itoa(n);
    if n < 0 {
      var m: nat := -(n as int);
      var d := Digits(m);
      ValueOfDigits(m);
      assert s == "-" + d && s[0] == '-';
      assert Unsigned(s) == d;
      assert AllDigits(d) && d != [];
      assert ValueOf(d) == m;
    } else {
      var d := Digits(n);
      ValueOfDigits(n);
      assert s == d && s[0] != '-' && s[0] != '+';
      assert Unsigned(s) == d;
      assert AllDigits(d) && d != [];
    }
  }

  /** The other direction: a canonical text that Atoi accepts is exactly what Itoa prints for its value. */
  lemma ItoaAtoi(s: string)
    requires Canonical(s) && Atoi(s).Some?
    ensures Itoa(Atoi(s).value) == s
  {
    var n := Atoi(s).value;
    if CanonicalMagnitude(s) {
      DigitsOfValue(s);
    } else {
      var t := s[1..];
      DigitsOfValue(t);
      assert Unsigned(s) == t;
      assert s == "-" + t;
    }
  }

  /** A byte that is neither a digit nor a leading sign makes Atoi fail. */
  lemma AtoiRejectsNonDigit(s: string, i: nat)
    requires i < |s| && !IsDigit(s[i])
    requires i == 0 ==> s[0] != '+' && s[0] != '-'
    ensures Atoi(s) == None
  {
    var t := Unsigned(s);
    var j := |s| - |t|;
    assert j <= i && t[i - j] == s[i];
  }

  /** A pid file holding the number followed by a newline does not parse. */
  lemma AtoiRejectsTrailingNewline(s: string)
    ensures Atoi(s + "\n") == None
  {
    var u := s + "\n";
    if |s| == 0 {
      AtoiRejectsNonDigit(u, 0);
    } else {
      AtoiRejectsNonDigit(u, |s|);
    }
  }

  lemma AtoiRejectsEmpty()
    ensures Atoi("") == None
  {
  }
}
