/**
 * Decimal text and integers, as Rust's standard library converts between them:
 * `str::parse` for the integer types (`from_str_radix` with radix 10), which
 * `init_config_by_env` unwraps, and `Display` for `i64`, which the bot uses to
 * print chat ids.
 */
module Decimal {
  import opened Wrappers

  /** The kinds of `ParseIntError` that radix-10 parsing can produce. */
  datatype IntErrorKind = Empty | InvalidDigit | PosOverflow | NegOverflow

  predicate IsDigit(c: char) {
    '0' <= c <= '9'
  }

  predicate AllDigits(ds: string) {
    forall i :: 0 <= i < |ds| ==> IsDigit(ds[i])
  }

  function DigitValue(c: char): nat
    requires IsDigit(c)
  {
    (c as int) - ('0' as int)
  }

  function DigitChar(d: nat): (c: char)
    requires d < 10
    ensures IsDigit(c) && DigitValue(c) == d
  {
    (('0' as int) + d) as char
  }

  /** The value of the digits `ds`, most significant first, appended to `acc`. */
  function Horner(ds: string, acc: int): int
    requires AllDigits(ds)
  {
    if ds == [] then acc else Horner(ds[1..], acc * 10 + DigitValue(ds[0]))
  }

  /**
   * The texts an integer type accepts: an optional sign, then at least one
   * decimal digit; `-` only for a signed type.
   */
  predicate WellFormed(s: string, signed: bool) {
    if |s| > 0 && (s[0] == '+' || (signed && s[0] == '-')) then |s| > 1 && AllDigits(s[1..])
    else |s| > 0 && AllDigits(s)
  }

  /** The integer a well-formed text denotes. */
  function ValueOf(s: string): int
    requires WellFormed(s, true)
  {
    if s[0] == '-' then -Horner(s[1..], 0)
    else if s[0] == '+' then Horner(s[1..], 0)
    else Horner(s, 0)
  }

  /**
   * The digit loop of `from_str_radix`: each character must be a digit, and the
   * running value is checked against the type's range after every digit.
   */
  function Accumulate(ds: string, acc: int, positive: bool, lo: int, hi: int): (r: Result<int, IntErrorKind>)
    requires lo <= 0 <= hi
    requires lo <= acc <= hi
    requires positive ==> 0 <= acc
    requires !positive ==> acc <= 0
    ensures r.Success? ==> lo <= r.value <= hi
    ensures r.Success? ==> AllDigits(ds)
    ensures r.Success? && positive ==> r.value == Horner(ds, acc)
    ensures r.Success? && !positive ==> r.value == -Horner(ds, -acc)
    decreases |ds|
  {
    if ds == [] then Success(acc)
    else if !IsDigit(ds[0]) then Failure(InvalidDigit)
    else if positive then
      var next := acc * 10 + DigitValue(ds[0]);
      if next > hi then Failure(PosOverflow)
      else
        var r := Accumulate(ds[1..], next, positive, lo, hi);
        assert r.Success? ==> AllDigits(ds) by {
          if r.Success? {
            forall i | 0 <= i < |ds| ensures IsDigit(ds[i]) {
              if i > 0 { assert ds[i] == ds[1..][i - 1]; }
            }
          }
        }
        r
    else
      var next := acc * 10 - DigitValue(ds[0]);
      if next < lo then Failure(NegOverflow)
      else
        var r := Accumulate(ds[1..], next, positive, lo, hi);
        assert r.Success? ==> AllDigits(ds) by {
          if r.Success? {
            forall i | 0 <= i < |ds| ensures IsDigit(ds[i]) {
              if i > 0 { assert ds[i] == ds[1..][i - 1]; }
            }
          }
        }
        r
  }

  /**
   * `s.parse::<T>()` for an integer type `T` whose range is `lo..=hi`; the type
   * is signed exactly when `lo < 0`.
   */
  function ParseInt(s: string, lo: int, hi: int): (r: Result<int, IntErrorKind>)
    requires lo <= 0 <= hi
    ensures r.Success? ==> lo <= r.value <= hi
    ensures r.Success? ==> WellFormed(s, lo < 0) && r.value == ValueOf(s)
    ensures s == [] ==> r == Failure(Empty)
  {
    if |s| == 0 then Failure(Empty)
    else if (s[0] == '+' || s[0] == '-') && |s| == 1 then Failure(InvalidDigit)
    else if s[0] == '+' then Accumulate(s[1..], 0, true, lo, hi)
    else if s[0] == '-' && lo < 0 then Accumulate(s[1..], 0, false, lo, hi)
    else Accumulate(s, 0, true, lo, hi)
  }

  /** The decimal digits of `n`, without leading zeros. */
  function NatDigits(n: nat): (ds: string)
    ensures |ds| > 0 && AllDigits(ds) && Horner(ds, 0) == n
    ensures n == 0 ==> ds == "0"
    ensures n > 0 ==> ds[0] != '0'
    decreases n
  {
    if n < 10 then
      var ds := [DigitChar(n)];
      assert Horner(ds, 0) == Horner(ds[1..], DigitValue(ds[0]));
      ds
    else
      var init := NatDigits(n / 10);
      var ds := init + [DigitChar(n % 10)];
      HornerSnoc(init, DigitChar(n % 10), 0);
      ds
  }

  /**
   * `format!("{}", v)` for a signed integer: well-formed text denoting `v`,
   * signed only when negative, with no leading zeros ("0" for zero).
   */
  function Dec(v: int): (s: string)
    ensures WellFormed(s, true) && ValueOf(s) == v
    ensures s[0] != '+' && (s[0] == '-' <==> v < 0)
    ensures v == 0 ==> s == "0"
    ensures v != 0 ==> (if v < 0 then s[1] else s[0]) != '0'
  {
    if v < 0 then
      var s := "-" + NatDigits(-v);
      assert s[1..] == NatDigits(-v);
      s
    else NatDigits(v)
  }

  lemma {:induction false} HornerSnoc(ds: string, c: char, acc: int)
    requires AllDigits(ds) && IsDigit(c)
    ensures AllDigits(ds + [c])
    ensures Horner(ds + [c], acc) == Horner(ds, acc) * 10 + DigitValue(c)
  {
    if ds == [] {
      assert [c][1..] == [];
    } else {
      assert (ds + [c])[1..] == ds[1..] + [c];
      HornerSnoc(ds[1..], c, acc * 10 + DigitValue(ds[0]));
    }
  }

  /** A running value never shrinks as digits are appended. */
  lemma {:induction false} HornerGrows(ds: string, acc: int)
    requires AllDigits(ds) && 0 <= acc
    ensures Horner(ds, acc) >= acc
  {
    if ds != [] {
      HornerGrows(ds[1..], acc * 10 + DigitValue(ds[0]));
    }
  }

  /** On digits alone the loop yields the value, or the overflow it runs into. */
  lemma {:induction false} AccumulateDigits(ds: string, acc: int, positive: bool, lo: int, hi: int)
    requires lo <= 0 <= hi && lo <= acc <= hi
    requires AllDigits(ds)
    requires positive ==> 0 <= acc
    requires !positive ==> acc <= 0
    ensures positive && Horner(ds, acc) <= hi ==> Accumulate(ds, acc, positive, lo, hi) == Success(Horner(ds, acc))
    ensures positive && Horner(ds, acc) > hi ==> Accumulate(ds, acc, positive, lo, hi) == Failure(PosOverflow)
    ensures !positive && -Horner(ds, -acc) >= lo ==> Accumulate(ds, acc, positive, lo, hi) == Success(-Horner(ds, -acc))
    ensures !positive && -Horner(ds, -acc) < lo ==> Accumulate(ds, acc, positive, lo, hi) == Failure(NegOverflow)
    decreases |ds|
  {
    if ds != [] {
      if positive {
        var next := acc * 10 + DigitValue(ds[0]);
        HornerGrows(ds[1..], next);
        if next <= hi {
          AccumulateDigits(ds[1..], next, positive, lo, hi);
        }
      } else {
        var next := acc * 10 - DigitValue(ds[0]);
        assert -next == (-acc) * 10 + DigitValue(ds[0]);
        HornerGrows(ds[1..], -next);
        if next >= lo {
          AccumulateDigits(ds[1..], next, positive, lo, hi);
        }
      }
    }
  }

  /**
   * Parsing succeeds exactly on well-formed text whose value is in range, and an
   * out-of-range value is reported as the overflow on its side.
   */
  lemma ParseIntCharacterised(s: string, lo: int, hi: int)
    requires lo <= 0 <= hi
    ensures ParseInt(s, lo, hi).Success? <==> WellFormed(s, lo < 0) && lo <= ValueOf(s) <= hi
    ensures WellFormed(s, lo < 0) && ValueOf(s) > hi ==> ParseInt(s, lo, hi) == Failure(PosOverflow)
    ensures WellFormed(s, lo < 0) && ValueOf(s) < lo ==> ParseInt(s, lo, hi) == Failure(NegOverflow)
  {
    if WellFormed(s, lo < 0) {
      if s[0] == '+' {
        AccumulateDigits(s[1..], 0, true, lo, hi);
      } else if s[0] == '-' {
        AccumulateDigits(s[1..], 0, false, lo, hi);
      } else {
        AccumulateDigits(s, 0, true, lo, hi);
      }
    }
  }

  /** What `Display` prints, `parse` reads back, for every value of the type. */
  lemma DecRoundTrip(v: int, lo: int, hi: int)
    requires lo <= 0 <= hi && lo <= v <= hi
    ensures ParseInt(Dec(v), lo, hi) == Success(v)
  {
    var s := Dec(v);
    if v < 0 {
      assert s[1..] == NatDigits(-v);
      assert WellFormed(s, lo < 0);
    } else {
      assert WellFormed(s, lo < 0);
    }
    ParseIntCharacterised(s, lo, hi);
  }
}
