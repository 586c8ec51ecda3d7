/**
 * Decimal conversion between Go ints and strings: strconv.Atoi (used on
 * API_QUOTA and on stored counters) and the decimal formatting go-redis
 * applies to an int argument (strconv.AppendInt, base 10), called Itoa here.
 */
module Strconv {
  import opened Wrappers
  import opened GoInt

  predicate IsDigit(c: char) { '0' <= c <= '9' }

  predicate AllDigits(s: string) { forall i :: 0 <= i < |s| ==> IsDigit(s[i]) }

  predicate IsSign(c: char) { c == '+' || c == '-' }

  /** The number a run of decimal digits denotes, most significant digit first; None if a character is not a digit. */
  function ParseDigits(s: string): (r: Option<nat>)
  {
    if s == [] then Some(0)
    else
      var prefix := ParseDigits(s[..|s| - 1]);
      var last := s[|s| - 1];
      if prefix.None? || !IsDigit(last) then None
      else Some(prefix.value * 10 + (last as int - '0' as int))
  }

  /**
   * strconv.Atoi for a 64-bit int: one optional sign, then one or more
   * decimal digits (leading zeros allowed, no underscores or spaces), and
   * the value must fit in an int64; anything else is an error.
   */
  function Atoi(s: string): (r: Option<Int64>)
    ensures r.Some? ==> |s| >= 1 && (r.value < 0 ==> s[0] == '-')
  {
    if s == [] then None
    else
      var digits := if IsSign(s[0]) then s[1..] else s;
      var magnitude := ParseDigits(digits);
      if digits == [] || magnitude.None? then None
      else
        var v: int := magnitude.value;
        var m := if s[0] == '-' then -v else v;
        if MinInt64 <= m <= MaxInt64 then Some(m) else None
  }

  function Digit(d: nat): (c: char)
    requires d < 10
    ensures IsDigit(c) && c as int - '0' as int == d
  {
    ('0' as int + d) as char
  }

  /** Decimal digits of a natural number, without leading zeros. */
  function NatStr(n: nat): (s: string)
    ensures |s| >= 1 && AllDigits(s)
    ensures s[0] == '0' ==> n == 0
  {
    if n < 10 then [Digit(n)] else NatStr(n / 10) + [Digit(n % 10)]
  }

  /** Decimal formatting of a Go int: a leading '-' for negatives. */
  function Itoa(n: int): (s: string)
    ensures |s| >= 1 && (s[0] == '-' <==> n < 0) && s[0] != '+'
  {
    if n < 0 then "-" + NatStr(-n) else NatStr(n)
  }

  /**
   * The integer syntax Redis INCR/DECR accept: exactly the strings Itoa
   * produces for an int64 (no sign '+', no leading zeros, no "-0").
   */
  predicate Canonical(v: string)
  {
    Atoi(v).Some? && Itoa(Atoi(v).value) == v
  }

  lemma {:induction false} NatStrValue(n: nat)
    ensures ParseDigits(NatStr(n)) == Some(n)
  {
    if n >= 10 {
      var s := NatStr(n);
      NatStrValue(n / 10);
      assert s[..|s| - 1] == NatStr(n / 10);
      assert s[|s| - 1] == Digit(n % 10);
    }
  }

  /** ParseDigits accepts exactly the strings made of digits only. */
  lemma {:induction false} ParseDigitsAccepts(s: string)
    ensures ParseDigits(s).Some? <==> AllDigits(s)
  {
    if s != [] {
      var prefix := s[..|s| - 1];
      ParseDigitsAccepts(prefix);
      assert forall i :: 0 <= i < |prefix| ==> prefix[i] == s[i];
    }
  }

  /**
   * What Atoi accepts. Success needs an optional sign followed by at least
   * one character, all of them digits; conversely such a string parses,
   * and Atoi gives its signed value exactly when that value fits in an int64.
   */
  lemma AtoiSyntax(s: string)
    ensures Atoi(s).Some? ==>
      |s| >= 1 && var digits := if IsSign(s[0]) then s[1..] else s; digits != [] && AllDigits(digits)
    ensures |s| >= 1 ==>
      var digits := if IsSign(s[0]) then s[1..] else s;
      digits != [] && AllDigits(digits) ==>
        ParseDigits(digits).Some? &&
        var v: int := ParseDigits(digits).value;
        var m := if s[0] == '-' then -v else v;
        Atoi(s) == if MinInt64 <= m <= MaxInt64 then Some(m) else None
  {
    if |s| >= 1 {
      ParseDigitsAccepts(if IsSign(s[0]) then s[1..] else s);
    }
  }

  /** Parsing what Itoa formatted gives back the same int64. */
  lemma AtoiItoa(n: Int64)
    ensures Atoi(Itoa(n)) == Some(n)
  {
    var s := Itoa(n);
    if n < 0 {
      var m: int := 0 - n as int;
      NatStrValue(m);
      assert s[0] == '-' && s[1..] == NatStr(m);
    } else {
      NatStrValue(n);
      assert IsDigit(s[0]) && !IsSign(s[0]);
    }
  }

  /** Every int64 value Itoa formats is in the syntax Redis counts with. */
  lemma ItoaCanonical(n: Int64)
    ensures Canonical(Itoa(n))
  {
    AtoiItoa(n);
  }

  /** Atoi is more lenient than Redis: an explicit '+' or a leading zero still parses. */
  lemma AtoiLenient()
    ensures Atoi("+5") == Some(5) && !Canonical("+5")
    ensures Atoi("05") == Some(5) && !Canonical("05")
  {
    assert "+5"[1..] == "5";
    assert ParseDigits("5") == Some(5);
    assert "05"[..1] == "0";
    assert ParseDigits("05") == Some(5);
    assert Itoa(5) == "5";
  }
}
