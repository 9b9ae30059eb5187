/** JavaScript's `Number.prototype.toFixed(1)`, on exact reals: the nearest
    tenth, the larger one on a tie, with the sign written separately. */
module NumberFormat {
  import opened Text

  /** A number written with one decimal: its sign and its magnitude in tenths. */
  datatype Fixed1 = Fixed1(negative: bool, tenths: nat)

  function Abs(x: real): real {
    if x < 0.0 then -x else x
  }

  /** `x.toFixed(1)`: the magnitude is the tenth nearest to |x|, rounded up
      on a tie, and a minus sign is written exactly when x is negative. */
  function ToFixed1(x: real): (f: Fixed1)
    ensures f.negative <==> x < 0.0
    ensures (f.tenths as real) / 10.0 - 0.05 <= Abs(x) < (f.tenths as real) / 10.0 + 0.05
  {
    var n := (Abs(x) * 10.0 + 0.5).Floor;
    Fixed1(x < 0.0, n)
  }

  /** The text `toFixed(1)` produces: a minus sign exactly for a negative
      value, then the whole part, a point and one digit; read back as
      decimal digits, the whole part and the digit give the tenths. */
  function Fixed1Text(f: Fixed1): (t: string)
    ensures var start := if f.negative then 1 else 0;
      && start + 3 <= |t|
      && (t[0] == '-' <==> f.negative)
      && IsDigits(t[start..|t| - 2]) && t[|t| - 2] == '.' && '0' <= t[|t| - 1] <= '9'
      && DigitsValue(t[start..|t| - 2]) * 10 + DigitValue(t[|t| - 1]) == f.tenths
  {
    var whole := NatToString(f.tenths / 10);
    var digit := DigitChar(f.tenths % 10);
    NatToStringReadsBack(f.tenths / 10);
    DigitCharValue(f.tenths % 10);
    Fixed1Layout(if f.negative then "-" else "", whole, digit);
    (if f.negative then "-" else "") + whole + "." + [digit]
  }

  /** Where the parts of a sign, whole part, point and digit sit. */
  lemma Fixed1Layout(sign: string, whole: string, digit: char)
    ensures var t := sign + whole + "." + [digit];
      && |t| == |sign| + |whole| + 2
      && t[..|sign|] == sign && t[|sign|..|t| - 2] == whole
      && t[|t| - 2] == '.' && t[|t| - 1] == digit
  {
    var t := sign + whole + "." + [digit];
    assert t[|sign|..|t| - 2] == whole;
  }

  /** At most one count of tenths lies within half a tenth of a value (the
      interval is closed below and open above), so `ToFixed1` is the only
      answer its contract allows. */
  lemma Fixed1Unique(m: real, n: nat, n': nat)
    requires (n as real) / 10.0 - 0.05 <= m < (n as real) / 10.0 + 0.05
    requires (n' as real) / 10.0 - 0.05 <= m < (n' as real) / 10.0 + 0.05
    ensures n == n'
  {
  }

  /** 82.3 rounds to 823 tenths and zero to none. */
  lemma ToFixed1Examples()
    ensures ToFixed1(82.3) == Fixed1(false, 823)
    ensures ToFixed1(0.0) == Fixed1(false, 0)
  {
    Fixed1Unique(82.3, ToFixed1(82.3).tenths, 823);
    Fixed1Unique(0.0, ToFixed1(0.0).tenths, 0);
  }

  /** 82.3 is written "82.3" and zero "0.0". */
  lemma Fixed1TextExamples()
    ensures Fixed1Text(Fixed1(false, 823)) == "82.3"
    ensures Fixed1Text(Fixed1(false, 0)) == "0.0"
  {
    assert NatToString(82) == NatToString(8) + [DigitChar(2)] == "82";
  }
}
