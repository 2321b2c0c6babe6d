/**
 * `formatTime`, the player's "m:ss" label: whole seconds are split into
 * minutes and two-digit seconds with Swift's truncating integer division.
 */
module TimeFormat {
  import opened Numbers

  /** Swift's `Int(x)`: truncation toward zero (the trap on out-of-range values is not modelled). */
  function TruncateToInt(x: real): (n: int)
    ensures x >= 0.0 ==> n >= 0 && n as real <= x < n as real + 1.0
    ensures x < 0.0 ==> n <= 0 && n as real - 1.0 < x <= n as real
  {
    if x >= 0.0 then x.Floor else -((-x).Floor)
  }

  /** Euclidean division of a non-negative value by a positive one. */
  lemma DivBounds(m: int, d: int)
    requires m >= 0 && d > 0
    ensures m / d >= 0
    ensures d * (m / d) <= m < d * (m / d) + d
  {
  }

  /** Swift's `/` on `Int`: the quotient truncated toward zero. */
  function Quot(n: int, d: int): (q: int)
    requires d > 0
    ensures n >= 0 ==> q >= 0 && d * q <= n < d * q + d
    ensures n < 0 ==> q <= 0 && d * q - d < n <= d * q
  {
    if n >= 0 then
      DivBounds(n, d);
      n / d
    else
      var k := (-n) / d;
      DivBounds(-n, d);
      assert d * -k == -(d * k);
      -k
  }

  /** Swift's `%` on `Int`: the remainder takes the sign of the dividend. */
  function Rem(n: int, d: int): (r: int)
    requires d > 0
    ensures n == d * Quot(n, d) + r
    ensures n >= 0 ==> 0 <= r < d
    ensures n < 0 ==> -d < r <= 0
  {
    n - d * Quot(n, d)
  }

  predicate IsDigit(c: char) { '0' <= c <= '9' }

  predicate AllDigits(s: string) { forall i :: 0 <= i < |s| ==> IsDigit(s[i]) }

  function DigitChar(d: nat): (c: char)
    requires d < 10
    ensures IsDigit(c) && c as int - '0' as int == d
  {
    ('0' as int + d) as char
  }

  /** The decimal digits of n, most significant first. */
  function NatToDecimal(n: nat): (s: string)
    ensures |s| >= 1 && AllDigits(s)
    ensures n < 10 ==> |s| == 1
    ensures 10 <= n < 100 ==> |s| == 2
    decreases n
  {
    if n < 10 then [DigitChar(n)] else NatToDecimal(n / 10) + [DigitChar(n % 10)]
  }

  /** `%d`: a minus sign for a negative value, then the digits of its magnitude. */
  function IntToDecimal(n: int): (s: string)
    ensures n >= 0 ==> |s| >= 1 && AllDigits(s)
    ensures n < 0 ==> |s| >= 2 && s[0] == '-' && AllDigits(s[1..])
  {
    if n < 0 then "-" + NatToDecimal(-n) else NatToDecimal(n)
  }

  /** `%02d`: zero-padded on the left to two characters. */
  function ZeroPad2(n: int): (s: string)
    ensures 0 <= n < 100 ==> |s| == 2 && AllDigits(s)
    ensures (n < 0 || n >= 10) ==> s == IntToDecimal(n)
  {
    if 0 <= n < 10 then "0" + IntToDecimal(n) else IntToDecimal(n)
  }

  /** `formatTime(seconds)`: "0:00" when the value is not finite, otherwise "%d:%02d" of minutes and seconds. */
  function FormatTime(seconds: Double): (r: string)
    ensures seconds.Finite? && seconds.value >= 0.0 ==> |r| >= 4 && r[|r| - 3] == ':' && AllDigits(r[..|r| - 3]) && AllDigits(r[|r| - 2..])
  {
    match seconds
    case NonFinite => "0:00"
    case Finite(x) =>
      var n := TruncateToInt(x);
      IntToDecimal(Quot(n, 60)) + ":" + ZeroPad2(Rem(n, 60))
  }

  /** The value a digit string denotes. */
  function DecimalValue(s: string): nat
    requires AllDigits(s)
  {
    if s == [] then 0 else DecimalValue(s[..|s| - 1]) * 10 + (s[|s| - 1] as int - '0' as int)
  }

  /** Reading the digits back gives the number. */
  lemma {:induction false} DecimalRoundTrip(n: nat)
    ensures DecimalValue(NatToDecimal(n)) == n
    decreases n
  {
    if n >= 10 {
      DecimalRoundTrip(n / 10);
      var s := NatToDecimal(n);
      assert s[..|s| - 1] == NatToDecimal(n / 10);
    }
  }

  /** `%d` reads back as the value, its sign included. */
  lemma IntToDecimalReadsBack(n: int)
    ensures n >= 0 ==> DecimalValue(IntToDecimal(n)) == n
    ensures n < 0 ==> DecimalValue(IntToDecimal(n)[1..]) == -n
  {
    if n >= 0 {
      DecimalRoundTrip(n);
    } else {
      DecimalRoundTrip(-n);
      assert IntToDecimal(n)[1..] == NatToDecimal(-n);
    }
  }

  /** `%02d` of a value in 0..99 reads back as that value. */
  lemma ZeroPad2ReadsBack(n: int)
    requires 0 <= n < 100
    ensures DecimalValue(ZeroPad2(n)) == n
  {
    var q := ZeroPad2(n);
    DecimalRoundTrip(n);
    if n < 10 {
      assert q == "0" + NatToDecimal(n);
      assert q[..1] == "0";
      assert DecimalValue(q[..1]) == 0;
      assert DecimalValue(q) == DecimalValue(q[..1]) * 10 + (q[1] as int - '0' as int);
    }
  }

  /**
   * For a finite, non-negative time the label is "<minutes>:<ss>" where
   * the minutes and the two seconds digits read back as n / 60 and n % 60
   * of the whole seconds n: the seconds lie in 0..59 and minutes * 60 +
   * seconds == n.
   */
  lemma FormatTimeReadsBack(x: real)
    requires x >= 0.0
    ensures var r := FormatTime(Finite(x)); var n := x.Floor;
      var mins := r[..|r| - 3]; var secs := r[|r| - 2..];
      x.Floor >= 0 &&
      DecimalValue(mins) == n / 60 && DecimalValue(secs) == n % 60 &&
      0 <= DecimalValue(secs) <= 59 && DecimalValue(mins) * 60 + DecimalValue(secs) == n
  {
    var n := TruncateToInt(x);
    var r := FormatTime(Finite(x));
    var m := NatToDecimal(n / 60);
    var q := ZeroPad2(n % 60);
    assert r == m + ":" + q;
    assert |q| == 2;
    assert r[..|r| - 3] == m;
    assert r[|r| - 2..] == q;
    DecimalRoundTrip(n / 60);
    DecimalRoundTrip(n % 60);
    if n % 60 < 10 {
      assert q == "0" + NatToDecimal(n % 60);
      assert q[..1] == "0";
      assert DecimalValue(q[..1]) == 0;
      assert q[1..] == NatToDecimal(n % 60);
      assert DecimalValue(q) == DecimalValue(q[..1]) * 10 + (q[1] as int - '0' as int);
    }
  }

  /** A negative time keeps Swift's signs in both fields: -65.5 s reads "-1:-5". */
  lemma NegativeTimeExample()
    ensures FormatTime(Finite(-65.5)) == "-1:-5"
  {
    assert TruncateToInt(-65.5) == -65;
    assert Quot(-65, 60) == -1;
    assert NatToDecimal(1) == "1";
    assert NatToDecimal(5) == "5";
  }

  /** A non-finite time reads "0:00". */
  lemma NonFiniteTime()
    ensures FormatTime(NonFinite) == "0:00"
  {
  }
}
