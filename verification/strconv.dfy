/** Go's `strconv.Atoi` for a 64-bit `int`: optional sign, base-10 digits, no
    underscores, no surrounding space, and the value must fit in an `int64`.
    The scan follows the library's `ParseInt`/`ParseUint` path: the digits are
    read into an unsigned 64-bit accumulator that fails on overflow, then the
    sign and the signed range are applied. Atoi's fast path for input shorter
    than 19 bytes gives the same result. The declarative grammar `IsDecimal`/`DecimalValue` is the reference
    the scan is proved against, and `Itoa` is its inverse. */
module Strconv {
  import opened Wrappers
  import opened Values

  predicate IsDigit(c: char) {
    '0' <= c <= '9'
  }

  predicate AllDigits(s: string) {
    forall i :: 0 <= i < |s| ==> IsDigit(s[i])
  }

  function DigitValue(c: char): nat
    requires IsDigit(c)
  {
    c as int - '0' as int
  }

  /** The value of a digit string, most significant digit first; "" reads as 0. */
  function DigitsValue(s: string): nat
    requires AllDigits(s)
  {
    if |s| == 0 then 0 else DigitsValue(s[..|s| - 1]) * 10 + DigitValue(s[|s| - 1])
  }

  /** Base-10 text with at most one leading sign and at least one digit. */
  predicate IsDecimal(s: string) {
    || (|s| > 0 && AllDigits(s))
    || (|s| > 1 && (s[0] == '+' || s[0] == '-') && AllDigits(s[1..]))
  }

  /** The mathematical value of decimal text, with no range limit. */
  function DecimalValue(s: string): int
    requires IsDecimal(s)
  {
    if s[0] == '-' then -(DigitsValue(s[1..]) as int)
    else if s[0] == '+' then DigitsValue(s[1..])
    else DigitsValue(s)
  }

  /** A digit prefix never reads as more than the whole digit string. */
  lemma {:induction false} DigitsValuePrefix(s: string, j: nat)
    requires AllDigits(s) && j <= |s|
    ensures DigitsValue(s[..j]) <= DigitsValue(s)
    decreases |s|
  {
    if j < |s| {
      var t := s[..|s| - 1];
      assert t[..j] == s[..j];
      DigitsValuePrefix(t, j);
    } else {
      assert s[..j] == s;
    }
  }

  /** The digit loop of ParseUint from index `i` on, with `acc` the value of the
      digits before `i`; fails on a non-digit or when the value leaves uint64. */
  function ScanDigits(s: string, i: nat, acc: nat): (r: Option<nat>)
    requires i <= |s| && AllDigits(s[..i]) && acc == DigitsValue(s[..i])
    requires acc <= MaxUint64
    ensures r.Some? <==> AllDigits(s) && DigitsValue(s) <= MaxUint64
    ensures r.Some? ==> r.value == DigitsValue(s)
    decreases |s| - i
  {
    if i == |s| then
      assert s[..i] == s;
      Some(acc)
    else if !IsDigit(s[i]) then
      None
    else
      var n := acc * 10 + DigitValue(s[i]);
      assert s[..i + 1][..i] == s[..i];
      assert AllDigits(s[..i + 1]) && n == DigitsValue(s[..i + 1]);
      if n > MaxUint64 then
        (if AllDigits(s) then DigitsValuePrefix(s, i + 1); None else None)
      else
        ScanDigits(s, i + 1, n)
  }

  /** `strconv.ParseUint(s, 10, 64)`: the empty string is a syntax error. */
  function ParseUint(s: string): (r: Option<nat>)
    ensures r.Some? <==> |s| > 0 && AllDigits(s) && DigitsValue(s) <= MaxUint64
    ensures r.Some? ==> r.value == DigitsValue(s)
  {
    if |s| == 0 then None else ScanDigits(s, 0, 0)
  }

  /** `strconv.Atoi(s)`: the value of `s` when it is signed decimal text whose
      value fits in an int64, and no value otherwise. */
  function Atoi(s: string): (r: Option<Int64>)
    ensures r.Some? <==> IsDecimal(s) && MinInt64 <= DecimalValue(s) <= MaxInt64
    ensures r.Some? ==> r.value == DecimalValue(s)
  {
    if |s| == 0 then None
    else
      var neg := s[0] == '-';
      var digits := if s[0] == '+' || s[0] == '-' then s[1..] else s;
      match ParseUint(digits)
      case None => None
      case Some(u) =>
        if !neg && u > MaxInt64 then None
        else if neg && u > -MinInt64 then None
        else Some(if neg then -(u as int) else u as int)
  }

  function DigitChar(d: nat): char
    requires d < 10
  {
    ('0' as int + d) as char
  }

  /** Shortest decimal text of a natural number. */
  function FormatUint(n: nat): string
  {
    if n < 10 then [DigitChar(n)] else FormatUint(n / 10) + [DigitChar(n % 10)]
  }

  /** `strconv.Itoa`: the decimal text of an integer, with '-' for negatives. */
  function Itoa(n: int): string
  {
    if n < 0 then "-" + FormatUint(-n) else FormatUint(n)
  }

  lemma {:induction false} FormatUintDigits(n: nat)
    ensures |FormatUint(n)| > 0 && AllDigits(FormatUint(n))
    ensures DigitsValue(FormatUint(n)) == n
    decreases n
  {
    var s := FormatUint(n);
    if n < 10 {
      assert s[..|s| - 1] == [];
    } else {
      FormatUintDigits(n / 10);
      assert s[..|s| - 1] == FormatUint(n / 10);
    }
  }

  /** Atoi reads back exactly the integers Itoa writes that fit in an int64,
      and rejects the text of every integer outside that range. */
  lemma AtoiItoa(n: int)
    ensures Atoi(Itoa(n)).Some? <==> MinInt64 <= n <= MaxInt64
    ensures Atoi(Itoa(n)).Some? ==> Atoi(Itoa(n)).value == n
  {
    var s := Itoa(n);
    if n < 0 {
      FormatUintDigits(-n);
      assert s[1..] == FormatUint(-n);
    } else {
      FormatUintDigits(n);
    }
    assert IsDecimal(s) && DecimalValue(s) == n;
  }

  /** Samples of the accepted and rejected forms. */
  lemma AtoiExamples()
    ensures Atoi("42") == Some(42)
    ensures Atoi("-7") == Some(-7)
    ensures Atoi("+007") == Some(7)
    ensures Atoi("") == None
    ensures Atoi("abc") == None
    ensures Atoi("-") == None
    ensures Atoi("+-1") == None
    ensures Atoi(" 1") == None
    ensures Atoi("1_000") == None
  {
    assert DecimalValue("42") == 42 by {
      assert "42"[..1] == "4" && "4"[..0] == "";
      assert DigitsValue("4") == 4;
      assert IsDigit("42"[0]);
      assert DigitsValue("42") == DigitsValue("4") * 10 + 2;
    }
    assert DecimalValue("-7") == -7 by {
      assert "-7"[1..] == "7" && "7"[..0] == "";
      assert DigitsValue("7") == 7;
    }
    assert DecimalValue("+007") == 7 by {
      assert "+007"[1..] == "007";
      assert "007"[..2] == "00";
      assert "00"[..1] == "0";
    }
    assert !IsDecimal("abc") by {
      assert !IsDigit("abc"[0]);
      assert !IsDigit("abc"[1..][0]);
    }
    assert !IsDecimal("+-1") by {
      assert !IsDigit("+-1"[1..][0]);
    }
    assert !IsDecimal(" 1") by {
      assert !IsDigit(" 1"[0]);
    }
    assert !IsDecimal("1_000") by {
      assert !IsDigit("1_000"[1]);
      assert !IsDigit("1_000"[1..][0]);
    }
  }
}
