/** The unit conversions of display.c: altitude as a percentage of one volt of ADC
    travel, yaw in hundredths of a degree, and the whole/hundredths split that the
    PROCESSED screen prints. */
module Display {
  import opened CInt

  /** display.h */
  const AdcStepFor1V := 1240
  const YawSteps := 448
  const DegRev := 360
  const ScaleBy100 := 100

  // ---------------------------------------------------------------------------
  // Conversions

  /** getAltPercent: how far `altitude` is above the landed reading, in percent of one
      volt of ADC, with C's truncating division. */
  function GetAltPercent(baseAltitude: uint16, altitude: int32): int {
    CDiv((baseAltitude - altitude) * ScaleBy100, AdcStepFor1V)
  }

  /** getYawDegree: the encoder position in hundredths of a degree, truncated toward 0. */
  function GetYawDegree(currentYaw: int32): int {
    CDiv(currentYaw * DegRev * ScaleBy100, YawSteps)
  }

  /** On the ground the altitude reads 0 %. */
  lemma AltPercentAtBase(b: uint16)
    ensures GetAltPercent(b, b) == 0
  {
  }

  /** One volt of ADC above the landed reading reads 100 %, whatever the landed reading. */
  lemma AltPercentOneVolt(b: uint16)
    ensures GetAltPercent(b, b - AdcStepFor1V) == 100
  {
  }

  /** A larger ADC reading is a lower helicopter: the percentage never increases
      as the reading grows. */
  lemma AltPercentMonotone(b: uint16, a: int32, a': int32)
    requires a <= a'
    ensures GetAltPercent(b, a') <= GetAltPercent(b, a)
  {
    CDivMonotone((b - a') * ScaleBy100, (b - a) * ScaleBy100, AdcStepFor1V);
  }

  /** Between the landed reading and one volt above it the percentage is in [0, 100]. */
  lemma AltPercentInFlightBand(b: uint16, a: int32)
    requires b - AdcStepFor1V <= a <= b
    ensures 0 <= GetAltPercent(b, a) <= 100
  {
    AltPercentMonotone(b, a, b);
    AltPercentMonotone(b, b - AdcStepFor1V, a);
  }

  /** Turning one way or the other by the same number of steps reads the same angle
      with the opposite sign. */
  lemma YawDegreeOdd(y: int32)
    requires y > -0x8000_0000
    ensures GetYawDegree(-y) == -GetYawDegree(y)
  {
    assert -y * DegRev * ScaleBy100 == -(y * DegRev * ScaleBy100);
    CDivNeg(y * DegRev * ScaleBy100, YawSteps);
  }

  /** A position in the decoder's range [-224, 224] reads within [-180.00, 180.00] degrees. */
  lemma YawDegreeInRange(y: int32)
    requires -YawSteps / 2 <= y <= YawSteps / 2
    ensures -18000 <= GetYawDegree(y) <= 18000
  {
    CDivMonotone(y * 36000, 224 * 36000, YawSteps);
    CDivMonotone(-224 * 36000, y * 36000, YawSteps);
  }

  /** A quarter turn of the encoder reads exactly 90.00 degrees. */
  lemma YawDegreeQuarterTurn()
    ensures GetYawDegree(YawSteps / 4) == 9000
    ensures GetYawDegree(-YawSteps / 4) == -9000
  {
  }

  /** For every value the firmware passes (an ADC reading or an int16 setpoint, and an
      int16 yaw) the products inside the conversions fit in an int32. */
  lemma ConversionsFitInt32(b: uint16, a: int, y: int16)
    requires -0x8000 <= a < 0x1_0000
    ensures -0x8000_0000 <= (b - a) * ScaleBy100 < 0x8000_0000
    ensures -0x8000_0000 <= y * DegRev * ScaleBy100 < 0x8000_0000
  {
  }

  // ---------------------------------------------------------------------------
  // The PROCESSED screen's yaw line

  /** The whole degrees, the hundredths shown after the point, and whether the
      negative-zero case was seen. */
  datatype YawSplit = YawSplit(whole: int, hundredths: int, negZero: bool)

  /** displayWrite's split of a yaw in hundredths of a degree: C quotient and remainder
      by 100, with a negative remainder made positive and remembered. */
  function SplitYaw(d: int): (r: YawSplit)
    ensures 0 <= r.hundredths < ScaleBy100
    ensures Abs(d) == Abs(r.whole) * ScaleBy100 + r.hundredths
    ensures r.whole == 0 || ((r.whole < 0) <==> (d < 0))
    ensures r.negZero <==> d < 0 && r.hundredths != 0
  {
    var yawInt := CDiv(d, ScaleBy100);
    var yawDecimal := CRem(d, ScaleBy100);
    AbsMul(yawInt, ScaleBy100);
    if yawDecimal < 0 then YawSplit(yawInt, -yawDecimal, true)
    else YawSplit(yawInt, yawDecimal, false)
  }

  /** The "-0." line is printed exactly for the angles strictly between -1 and 0 degrees. */
  lemma NegativeZeroBranch(d: int)
    ensures (SplitYaw(d).negZero && SplitYaw(d).whole == 0) <==> -ScaleBy100 < d < 0
  {
    var s := SplitYaw(d);
    if -ScaleBy100 < d < 0 {
      assert Abs(s.whole) * ScaleBy100 < ScaleBy100;
    }
  }

  /** The decimal digit characters. */
  function DigitChar(n: int): char
    requires 0 <= n < 10
  {
    "0123456789"[n]
  }

  function DigitValue(c: char): int {
    if '0' <= c <= '9' then c as int - '0' as int else 0
  }

  /** `%d` of a natural number: its digits, most significant first, with no padding. */
  function DecimalText(n: nat): (t: string)
    ensures |t| >= 1 && forall i :: 0 <= i < |t| ==> '0' <= t[i] <= '9'
    decreases n
  {
    if n < 10 then [DigitChar(n)] else DecimalText(n / 10) + [DigitChar(n % 10)]
  }

  /** `%d` of any int: a minus sign before the digits of a negative value. */
  function IntText(i: int): string {
    if i < 0 then "-" + DecimalText(-i) else DecimalText(i)
  }

  /** `%02d` of a value below 100: always two digits. */
  function TwoDigitText(n: nat): (t: string)
    requires n < 100
    ensures |t| == 2 && '0' <= t[0] <= '9'
  {
    if n < 10 then "0" + DecimalText(n)
    else
      assert DecimalText(n) == DecimalText(n / 10) + [DigitChar(n % 10)];
      DecimalText(n)
  }

  /** The reading of a digit string, as a person reads it. */
  function DecimalValue(t: string): int
    decreases |t|
  {
    if t == [] then 0 else DecimalValue(t[..|t| - 1]) * 10 + DigitValue(t[|t| - 1])
  }

  lemma DigitRoundTrip(k: int)
    requires 0 <= k < 10
    ensures DigitValue(DigitChar(k)) == k
  {
  }

  lemma {:induction false} DecimalRoundTrip(n: nat)
    ensures DecimalValue(DecimalText(n)) == n
    decreases n
  {
    if n < 10 {
      DigitRoundTrip(n);
      assert DecimalText(n)[..0] == [];
    } else {
      var q, k := n / 10, n % 10;
      var t := DecimalText(n);
      assert t == DecimalText(q) + [DigitChar(k)];
      assert t[..|t| - 1] == DecimalText(q);
      DecimalRoundTrip(q);
      DigitRoundTrip(k);
      assert DecimalValue(t) == q * 10 + k;
    }
  }

  lemma TwoDigitRoundTrip(n: nat)
    requires n < 100
    ensures DecimalValue(TwoDigitText(n)) == n
  {
    DecimalRoundTrip(n);
    if n < 10 {
      var t := TwoDigitText(n);
      assert t[..|t| - 1] == "0";
    }
  }

  /** The yaw number as displayWrite prints it: `%d.%d` of the whole degrees and the
      hundredths, or "-0." and the hundredths in the negative-zero case. */
  function YawTextAsWritten(d: int): string {
    var s := SplitYaw(d);
    if s.negZero && s.whole == 0 then "-0." + DecimalText(s.hundredths)
    else IntText(s.whole) + "." + DecimalText(s.hundredths)
  }

  /** 1.05 degrees is printed "1.5", which reads as 1.50 degrees, and -0.05 degrees is
      printed "-0.5", which reads as -0.50 degrees: in both branches the hundredths lose
      their leading zero. */
  lemma YawTextAsWrittenMisreads()
    ensures YawTextAsWritten(105) == "1.5"
    ensures ReadYawText(YawTextAsWritten(105)) == 150
    ensures YawTextAsWritten(-5) == "-0.5"
    ensures ReadYawText(YawTextAsWritten(-5)) == -50
  {
    assert SplitYaw(105) == YawSplit(1, 5, false);
    assert IntText(1) == "1";
    assert DecimalText(5) == "5";
    var body := "1.5";
    assert body[..|body| - 2] == "1";
    assert SplitYaw(-5) == YawSplit(0, 5, true);
    var negative := "-0.5";
    assert negative[1..] == "0.5";
    var magnitude := "0.5";
    assert magnitude[..|magnitude| - 2] == "0";
  }

  /** The yaw number with the hundredths printed as `%02d`. */
  function YawText(d: int): string {
    var s := SplitYaw(d);
    if s.negZero && s.whole == 0 then "-0." + TwoDigitText(s.hundredths)
    else IntText(s.whole) + "." + TwoDigitText(s.hundredths)
  }

  /** How a person reads an unsigned decimal with one or two digits of fraction, in
      hundredths. */
  function ReadMagnitude(body: string): int {
    if |body| >= 2 && body[|body| - 2] == '.' then
      DecimalValue(body[..|body| - 2]) * ScaleBy100 + DigitValue(body[|body| - 1]) * 10
    else if |body| >= 3 then
      DecimalValue(body[..|body| - 3]) * ScaleBy100 + DecimalValue(body[|body| - 2..])
    else 0
  }

  /** How a person reads a printed yaw, in hundredths of a degree: an optional minus
      sign, then the whole degrees, a point and the fraction. */
  function ReadYawText(t: string): int {
    if |t| > 0 && t[0] == '-' then -ReadMagnitude(t[1..]) else ReadMagnitude(t)
  }

  /** Reading digits, a point and two digits gives back their value. */
  lemma ReadTwoDigitFraction(digits: string, n: nat)
    requires n < 100
    ensures ReadMagnitude(digits + "." + TwoDigitText(n))
      == DecimalValue(digits) * ScaleBy100 + DecimalValue(TwoDigitText(n))
  {
    var body := digits + "." + TwoDigitText(n);
    assert body[..|body| - 3] == digits;
    assert body[|body| - 2..] == TwoDigitText(n);
    assert body[|body| - 2] == TwoDigitText(n)[0];
  }

  /** With `%02d` hundredths the printed yaw reads back as the angle it came from. */
  lemma YawTextRoundTrip(d: int)
    ensures ReadYawText(YawText(d)) == d
  {
    var s := SplitYaw(d);
    TwoDigitRoundTrip(s.hundredths);
    if s.negZero && s.whole == 0 {
      assert "-0." == "-" + "0" + ".";
      ReadNegative("0", s.hundredths);
    } else if s.whole < 0 {
      var w: nat := -s.whole;
      assert d == -(w * ScaleBy100 + s.hundredths);
      assert IntText(s.whole) == "-" + DecimalText(w);
      DecimalRoundTrip(w);
      ReadNegative(DecimalText(w), s.hundredths);
    } else {
      DecimalRoundTrip(s.whole);
      ReadNonNegative(DecimalText(s.whole), s.hundredths);
    }
  }

  lemma ReadNegative(digits: string, n: nat)
    requires n < 100
    ensures ReadYawText("-" + digits + "." + TwoDigitText(n))
      == -(DecimalValue(digits) * ScaleBy100 + DecimalValue(TwoDigitText(n)))
  {
    var body := digits + "." + TwoDigitText(n);
    assert ("-" + digits + "." + TwoDigitText(n))[1..] == body;
    ReadTwoDigitFraction(digits, n);
  }

  lemma ReadNonNegative(digits: string, n: nat)
    requires n < 100 && |digits| >= 1 && digits[0] != '-'
    ensures ReadYawText(digits + "." + TwoDigitText(n))
      == DecimalValue(digits) * ScaleBy100 + DecimalValue(TwoDigitText(n))
  {
    var body := digits + "." + TwoDigitText(n);
    assert body[0] == digits[0];
    ReadTwoDigitFraction(digits, n);
  }

  /** So, unlike the text as written (see YawTextAsWrittenMisreads), each printed
      angle reads back as itself, and no two angles print the same. */
  lemma YawTextInjective(d: int, d': int)
    requires YawText(d) == YawText(d')
    ensures d == d'
  {
    YawTextRoundTrip(d);
    YawTextRoundTrip(d');
  }
}
