module Wrappers {

  datatype Option<+T> = None | Some(value: T)
}

/** The small amount of string handling the gate relies on: Go's
    `strings.SplitN(s, ".", 2)` and `strconv.Atoi`, stated over Dafny strings. */
module Text {
  import opened Wrappers

  /** Joins a head and a tail with a single dot; the inverse of SplitOnce. */
  function Join(head: string, tail: string): string
  {
    head + "." + tail
  }

  /** `strings.SplitN(s, ".", 2)` with the "no dot" case (a one-element result
      in Go) as None. The dot is ASCII, so splitting characters and splitting
      UTF-8 bytes agree. */
  function SplitOnce(s: string): (r: Option<(string, string)>)
    ensures r.None? <==> '.' !in s
    ensures r.Some? ==> '.' !in r.value.0 && s == Join(r.value.0, r.value.1)
  {
    if s == [] then None
    else if s[0] == '.' then Some(([], s[1..]))
    else match SplitOnce(s[1..])
      case None => None
      case Some((head, tail)) =>
        assert s == [s[0]] + s[1..];
        Some(([s[0]] + head, tail))
  }

  /** Splitting a joined string gives back its parts when the head has no dot. */
  lemma {:induction false} SplitOnceJoin(head: string, tail: string)
    requires '.' !in head
    ensures SplitOnce(Join(head, tail)) == Some((head, tail))
  {
    var s := Join(head, tail);
    if head == [] {
      assert s[1..] == tail;
    } else {
      assert s[1..] == Join(head[1..], tail);
      SplitOnceJoin(head[1..], tail);
      assert [s[0]] + head[1..] == head;
    }
  }

  predicate IsDigit(c: char)
  {
    '0' <= c <= '9'
  }

  predicate IsSign(c: char)
  {
    c == '+' || c == '-'
  }

  predicate AllDigits(s: string)
  {
    forall i :: 0 <= i < |s| ==> IsDigit(s[i])
  }

  /** The value of a run of decimal digits, most significant first. */
  function DigitsValue(digits: string): nat
    requires AllDigits(digits)
  {
    if digits == [] then 0
    else DigitsValue(digits[..|digits| - 1]) * 10 + (digits[|digits| - 1] as int - '0' as int)
  }

  /** The syntax `strconv.Atoi` accepts: an optional sign, then one or more
      ASCII digits. */
  predicate IsDecimal(s: string)
  {
    |s| > 0 && if IsSign(s[0]) then |s| > 1 && AllDigits(s[1..]) else AllDigits(s)
  }

  /** `strconv.Atoi`'s parse; anything that is not decimal is a syntax error
      (None). */
  function ParseInt(s: string): (r: Option<int>)
    ensures r.Some? <==> IsDecimal(s)
  {
    if |s| > 0 && IsSign(s[0]) then
      if |s| > 1 && AllDigits(s[1..]) then
        var v: int := DigitsValue(s[1..]);
        Some(if s[0] == '-' then -v else v)
      else None
    else if |s| > 0 && AllDigits(s) then Some(DigitsValue(s))
    else None
  }

  /** `n, _ := strconv.Atoi(s)`: the error is discarded, and Atoi's value on a
      syntax error is 0. */
  function Atoi(s: string): (r: int)
    ensures !IsDecimal(s) ==> r == 0
    ensures IsDecimal(s) ==> ParseInt(s) == Some(r)
  {
    match ParseInt(s)
    case Some(n) => n
    case None => 0
  }

  /** Decimal rendering of a natural number, without leading zeros. */
  function FormatNat(n: nat): (r: string)
    ensures |r| > 0 && AllDigits(r)
  {
    var last := ['0' + (n % 10) as char];
    if n < 10 then last else FormatNat(n / 10) + last
  }

  /** Decimal rendering of an integer, with a '-' when negative. */
  function FormatInt(n: int): string
  {
    if n < 0 then "-" + FormatNat(-n) else FormatNat(n)
  }

  lemma {:induction false} DigitsValueFormatNat(n: nat)
    ensures DigitsValue(FormatNat(n)) == n
  {
    var s := FormatNat(n);
    if n >= 10 {
      assert s[..|s| - 1] == FormatNat(n / 10);
      DigitsValueFormatNat(n / 10);
    }
  }

  /** Every integer survives a print-then-Atoi round trip. */
  lemma AtoiFormatInt(n: int)
    ensures Atoi(FormatInt(n)) == n
  {
    var s := FormatInt(n);
    if n < 0 {
      assert s[1..] == FormatNat(-n);
      DigitsValueFormatNat(-n);
    } else {
      DigitsValueFormatNat(n);
      assert !IsSign(s[0]);
    }
  }

  /** A character that is neither a digit nor a leading sign makes Atoi yield 0. */
  lemma AtoiSyntaxError(s: string, i: nat)
    requires i < |s| && !IsDigit(s[i])
    requires i > 0 || !IsSign(s[0])
    ensures Atoi(s) == 0
  {
    if IsSign(s[0]) {
      assert !IsDigit(s[1..][i - 1]);
    }
  }
}
