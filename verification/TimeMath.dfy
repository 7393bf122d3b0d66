/** Timestamp arithmetic: FFmpeg's rescaling and comparison, and the checked 64-bit helpers built on them. */
module TimeMath {
  import opened Results

  const INT64_MIN: int := -0x8000_0000_0000_0000
  const INT64_MAX: int := 0x7fff_ffff_ffff_ffff

  datatype Rational = Rational(num: int, den: int) {
    predicate Positive() {
      num > 0 && den > 0
    }

    function Value(): real
      requires Positive()
    {
      num as real / den as real
    }
  }

  type TimeBase = r: Rational | r.Positive() witness Rational(1, 1)

  const MICROSECONDS: TimeBase := Rational(1, 1000000)
  const MILLISECONDS: TimeBase := Rational(1, 1000)

  function Inverse(r: TimeBase): TimeBase {
    Rational(r.den, r.num)
  }

  /** The sign test of av_cmp_q: equality as rational numbers, not as pairs. */
  predicate SameRational(a: TimeBase, b: TimeBase) {
    a.num * b.den == b.num * a.den
  }

  // ----- rounding

  function Abs(x: int): int {
    if x < 0 then -x else x
  }

  function Min(x: int, y: int): int {
    if y < x then y else x
  }

  function Max(x: int, y: int): int {
    if y > x then y else x
  }

  function AbsReal(x: real): real {
    if x < 0.0 then -x else x
  }

  /** Nearest integer, ties away from zero. */
  ghost function Round(x: real): int {
    if x >= 0.0 then (x + 0.5).Floor else -((0.5 - x).Floor)
  }

  lemma RoundMonotone(x: real, y: real)
    requires x <= y
    ensures Round(x) <= Round(y)
  {
  }

  lemma RoundError(x: real)
    ensures AbsReal(Round(x) as real - x) <= 0.5
  {
  }

  // ----- av_rescale_q

  /** av_rescale_rnd with AV_ROUND_NEAR_INF, on the magnitude as FFmpeg does. */
  function RescaleInteger(a: int, b: int, c: int): int
    requires b > 0 && c > 0
  {
    if a >= 0 then (a * b + c / 2) / c else -((-a * b + c / 2) / c)
  }

  lemma QuotientBounds(n: int, c: int)
    requires c > 0 && n >= 0
    ensures var q := (n + c / 2) / c; q >= 0 && 2 * (q * c) <= 2 * n + c < 2 * (q * c) + 2 * c
  {
    var q := (n + c / 2) / c;
    assert n + c / 2 == q * c + (n + c / 2) % c;
    assert c == 2 * (c / 2) + c % 2;
  }

  lemma FloorFromBounds(n: int, c: int, q: int)
    requires c > 0 && n >= 0
    requires 2 * (q * c) <= 2 * n + c < 2 * (q * c) + 2 * c
    ensures (n as real / c as real + 0.5).Floor == q
  {
    var x, cr, qr := n as real / c as real, c as real, q as real;
    var m := q * c;
    assert x * cr == n as real;
    assert m as real == qr * cr;
    FloorByScaling(x + 0.5, cr, q, n as real + 0.5 * cr, m as real);
  }

  lemma FloorByScaling(y: real, c: real, q: int, yc: real, qc: real)
    requires c > 0.0
    requires yc == y * c && qc == q as real * c
    requires qc <= yc < qc + c
    ensures y.Floor == q
  {
    var d := y - q as real;
    assert d * c == yc - qc;
    ProductBounds(d, c);
  }

  lemma ProductBounds(d: real, c: real)
    requires c > 0.0
    ensures d < 0.0 ==> d * c < 0.0
    ensures d >= 1.0 ==> d * c >= c
  {
  }

  /** FFmpeg's integer formula is exact rational scaling rounded to nearest, ties away from zero. */
  lemma RescaleIntegerIsRound(a: int, b: int, c: int)
    requires b > 0 && c > 0
    ensures RescaleInteger(a, b, c) == Round((a * b) as real / c as real)
  {
    if a >= 0 {
      RoundOfQuotient(a * b, c);
    } else {
      assert -a * b == -(a * b);
      RoundOfQuotient(-a * b, c);
      RoundNegation((-a * b) as real / c as real, c as real, (-a * b) as real);
    }
  }

  lemma RoundOfQuotient(n: int, c: int)
    requires n >= 0 && c > 0
    ensures (n + c / 2) / c == Round(n as real / c as real)
    ensures n as real / c as real >= 0.0
  {
    QuotientBounds(n, c);
    FloorFromBounds(n, c, (n + c / 2) / c);
  }

  lemma RoundNegation(x: real, c: real, n: real)
    requires c > 0.0 && x == n / c && x >= 0.0
    ensures Round((-n) / c) == -Round(x)
  {
    assert (-n) / c == -x;
  }

  /** av_rescale_q: INT64_MIN signals a result outside the 64-bit range. */
  function AvRescaleQ(value: int, from: TimeBase, to: TimeBase): int {
    var clamped := if value < -INT64_MAX then -INT64_MAX else value;
    var r := RescaleInteger(clamped, from.num * to.den, to.num * from.den);
    if -INT64_MAX <= r <= INT64_MAX then r else INT64_MIN
  }

  /** Units of `to` per unit of `from`. */
  ghost function Factor(from: TimeBase, to: TimeBase): real {
    from.Value() / to.Value()
  }

  lemma FactorPositive(from: TimeBase, to: TimeBase)
    ensures Factor(from, to) > 0.0
  {
  }

  /** A timestamp multiplied by a factor and rounded. */
  ghost function ScaleBy(value: int, factor: real): int {
    Round(value as real * factor)
  }

  /** Exact scaling of a representable timestamp. */
  ghost function Scaled(value: int, from: TimeBase, to: TimeBase): int {
    ScaleBy(value, Factor(from, to))
  }

  lemma FactorAsQuotient(value: int, from: TimeBase, to: TimeBase)
    ensures from.num * to.den > 0 && to.num * from.den > 0
    ensures (value * (from.num * to.den)) as real / (to.num * from.den) as real == value as real * Factor(from, to)
  {
    var fn, fd, tn, td := from.num as real, from.den as real, to.num as real, to.den as real;
    var v := value as real;
    assert fn * td == (from.num * to.den) as real && tn * fd == (to.num * from.den) as real;
    assert (value * (from.num * to.den)) as real == v * (fn * td);
    QuotientOfQuotients(v, fn, fd, tn, td);
  }

  lemma QuotientOfQuotients(v: real, fn: real, fd: real, tn: real, td: real)
    requires fn > 0.0 && fd > 0.0 && tn > 0.0 && td > 0.0
    ensures tn * fd > 0.0
    ensures (v * (fn * td)) / (tn * fd) == v * ((fn / fd) / (tn / td))
  {
    var p, q := fn / fd, tn / td;
    assert p * fd == fn && q * td == tn && q > 0.0;
    var f := p / q;
    assert f * q == p;
    assert f * (tn * fd) == fn * td by {
      assert f * (tn * fd) == (f * q) * td * fd;
      assert (f * q) * td * fd == (p * fd) * td;
    }
    assert v * (fn * td) == (v * f) * (tn * fd);
  }

  lemma AvRescaleIsScaled(value: int, from: TimeBase, to: TimeBase)
    requires INT64_MIN < value
    ensures var s := Scaled(value, from, to);
            AvRescaleQ(value, from, to) == if -INT64_MAX <= s <= INT64_MAX then s else INT64_MIN
  {
    IntegerFormulaIsScaled(value, from, to, from.num * to.den, to.num * from.den);
  }

  lemma IntegerFormulaIsScaled(value: int, from: TimeBase, to: TimeBase, b: int, c: int)
    requires b == from.num * to.den && c == to.num * from.den
    ensures b > 0 && c > 0
    ensures RescaleInteger(value, b, c) == Scaled(value, from, to)
  {
    FactorAsQuotient(value, from, to);
    FormulaFromQuotient(value, b, c, Factor(from, to));
  }

  lemma FormulaFromQuotient(value: int, b: int, c: int, f: real)
    requires b > 0 && c > 0
    requires (value * b) as real / c as real == value as real * f
    ensures RescaleInteger(value, b, c) == ScaleBy(value, f)
  {
    RescaleIntegerIsRound(value, b, c);
  }

  lemma ScaledMonotone(x: int, y: int, from: TimeBase, to: TimeBase)
    requires x <= y
    ensures Scaled(x, from, to) <= Scaled(y, from, to)
  {
    FactorPositive(from, to);
    ScaleByMonotone(x, y, Factor(from, to));
  }

  lemma ScaleByMonotone(x: int, y: int, f: real)
    requires x <= y && f > 0.0
    ensures ScaleBy(x, f) <= ScaleBy(y, f)
  {
    var xf, yf := x as real * f, y as real * f;
    assert (y as real - x as real) * f >= 0.0;
    RoundMonotone(xf, yf);
  }

  /** Scaling there and back moves a value by at most half a target unit, plus the rounding of the return. */
  lemma ScaledRoundTrip(x: int, from: TimeBase, to: TimeBase)
    ensures AbsReal(Scaled(Scaled(x, from, to), to, from) as real - x as real) <= 0.5 * Factor(to, from) + 0.5
  {
    FactorsCancel(from, to);
    RoundTrip(x, Factor(from, to), Factor(to, from));
  }

  ghost predicate Inverses(f: real, g: real) {
    f > 0.0 && g > 0.0 && f * g == 1.0
  }

  lemma ScaleByError(x: int, f: real, xf: real)
    requires xf == x as real * f
    ensures AbsReal(ScaleBy(x, f) as real - xf) <= 0.5
  {
    RoundError(xf);
  }

  lemma RoundTrip(x: int, f: real, g: real)
    requires Inverses(f, g)
    ensures AbsReal(ScaleBy(ScaleBy(x, f), g) as real - x as real) <= 0.5 * g + 0.5
  {
    var y := ScaleBy(x, f);
    RoundTripFrom(x, y, f, g, x as real * f, y as real * g);
  }

  lemma RoundTripFrom(x: int, y: int, f: real, g: real, xf: real, yg: real)
    requires Inverses(f, g)
    requires xf == x as real * f && yg == y as real * g
    requires y == ScaleBy(x, f)
    ensures AbsReal(ScaleBy(y, g) as real - x as real) <= 0.5 * g + 0.5
  {
    ScaleByError(x, f, xf);
    ScaleByError(y, g, yg);
    ScaleBack(x as real, y as real, f, g, xf, yg);
    Triangle(ScaleBy(y, g) as real, yg, x as real, 0.5, 0.5 * g);
  }

  lemma Triangle(a: real, b: real, c: real, ab: real, bc: real)
    requires AbsReal(a - b) <= ab && AbsReal(b - c) <= bc
    ensures AbsReal(a - c) <= bc + ab
  {
  }

  lemma FactorsCancel(from: TimeBase, to: TimeBase)
    ensures Inverses(Factor(from, to), Factor(to, from))
  {
    Reciprocal(from.Value(), to.Value());
  }

  lemma Reciprocal(a: real, b: real)
    requires a > 0.0 && b > 0.0
    ensures Inverses(a / b, b / a)
  {
    var p, q := a / b, b / a;
    assert p * b == a && q * a == b;
    assert (p * q) * a == p * (q * a);
    assert (p * q - 1.0) * a == 0.0;
  }

  lemma ScaleBack(x: real, y: real, f: real, g: real, xf: real, yg: real)
    requires Inverses(f, g)
    requires xf == x * f && yg == y * g
    requires AbsReal(y - xf) <= 0.5
    ensures AbsReal(yg - x) <= 0.5 * g
  {
    assert xf * g == x * (f * g);
    var e := y - xf;
    assert yg - x == e * g;
    ProductMagnitude(e, g, e * g);
  }

  lemma ProductMagnitude(e: real, g: real, eg: real)
    requires g > 0.0 && eg == e * g
    requires AbsReal(e) <= 0.5
    ensures AbsReal(eg) <= 0.5 * g
  {
    ProductNonnegative(0.5 - e, g);
    ProductNonnegative(0.5 + e, g);
    assert (0.5 - e) * g == 0.5 * g - eg;
    assert (0.5 + e) * g == 0.5 * g + eg;
  }

  lemma ProductNonnegative(a: real, b: real)
    requires a >= 0.0 && b >= 0.0
    ensures a * b >= 0.0
  {
  }

  lemma EqualValues(a: TimeBase, b: TimeBase)
    requires SameRational(a, b)
    ensures a.Value() == b.Value()
  {
    var an, ad, bn, bd := a.num as real, a.den as real, b.num as real, b.den as real;
    assert an * bd == bn * ad by {
      assert (a.num * b.den) as real == an * bd;
      assert (b.num * a.den) as real == bn * ad;
    }
    assert (an / ad) * ad == an;
    assert (bn / bd) * bd == bn;
    assert ((an / ad) * ad) * bd == ((bn / bd) * bd) * ad;
    assert (an / ad - bn / bd) * (ad * bd) == 0.0;
  }

  lemma SameRationalScales(x: int, a: TimeBase, b: TimeBase, to: TimeBase)
    requires SameRational(a, b)
    ensures Scaled(x, a, to) == Scaled(x, b, to)
  {
    EqualValues(a, b);
  }

  /** The checked rescale every component wraps av_rescale_q in: both ends of the range are rejected. */
  function Rescale(value: int, from: TimeBase, to: TimeBase): (r: Result<int>)
    ensures r.Ok? ==> INT64_MIN < r.value < INT64_MAX
    ensures r.Ok? && INT64_MIN < value ==> r.value == Scaled(value, from, to)
    ensures r.Err? ==> r.error == Overflow
    ensures r.Err? && INT64_MIN < value ==> !(INT64_MIN < Scaled(value, from, to) < INT64_MAX)
  {
    var v := AvRescaleQ(value, from, to);
    assert INT64_MIN < value ==>
      var s := Scaled(value, from, to); v == if -INT64_MAX <= s <= INT64_MAX then s else INT64_MIN by {
      if INT64_MIN < value {
        AvRescaleIsScaled(value, from, to);
      }
    }
    if v == INT64_MIN || v == INT64_MAX then Err(Overflow) else Ok(v)
  }

  // ----- av_compare_ts

  function Sign(x: int): int {
    if x < 0 then -1 else if x == 0 then 0 else 1
  }

  /** av_compare_ts as exact cross-multiplication. */
  function CompareTs(a: int, ta: TimeBase, b: int, tb: TimeBase): int {
    Sign(a * (ta.num * tb.den) - b * (tb.num * ta.den))
  }

  /** The instant a timestamp denotes, in seconds. */
  ghost function Seconds(ts: int, tb: TimeBase): real {
    ts as real * tb.Value()
  }

  lemma SameRationalSameInstant(ts: int, a: TimeBase, b: TimeBase)
    requires SameRational(a, b)
    ensures Seconds(ts, a) == Seconds(ts, b)
  {
    EqualValues(a, b);
  }

  /** Cross-multiplication orders timestamps as the instants they denote. */
  lemma CompareIsInstantOrder(a: int, ta: TimeBase, b: int, tb: TimeBase)
    ensures CompareTs(a, ta, b, tb) < 0 <==> Seconds(a, ta) < Seconds(b, tb)
    ensures CompareTs(a, ta, b, tb) == 0 <==> Seconds(a, ta) == Seconds(b, tb)
    ensures CompareTs(a, ta, b, tb) > 0 <==> Seconds(a, ta) > Seconds(b, tb)
  {
    var x, y := Seconds(a, ta), Seconds(b, tb);
    var ad, bd := ta.den as real, tb.den as real;
    var d := ad * bd;
    assert d > 0.0;
    var l := a * (ta.num * tb.den);
    var r := b * (tb.num * ta.den);
    assert l as real == x * d by {
      assert ta.Value() * ad == ta.num as real;
      assert (ta.num * tb.den) as real == ta.num as real * bd;
      assert l as real == a as real * (ta.num as real * bd) == a as real * ((ta.Value() * ad) * bd)
        == (a as real * ta.Value()) * (ad * bd);
    }
    assert r as real == y * d by {
      assert tb.Value() * bd == tb.num as real;
      assert (tb.num * ta.den) as real == tb.num as real * ad;
      assert r as real == b as real * (tb.num as real * ad) == b as real * ((tb.Value() * bd) * ad)
        == (b as real * tb.Value()) * (ad * bd);
    }
    OrderScales(x, y, d);
  }

  lemma OrderScales(x: real, y: real, d: real)
    requires d > 0.0
    ensures x < y <==> x * d < y * d
    ensures x == y <==> x * d == y * d
  {
    if x < y {
      assert (y - x) * d > 0.0;
    } else if x > y {
      assert (x - y) * d > 0.0;
    }
  }

  // ----- checked 64-bit sums

  function Checked(x: int): (r: Result<int>)
    ensures r.Ok? <==> INT64_MIN <= x <= INT64_MAX
    ensures r.Ok? ==> r.value == x
    ensures r.Err? ==> r.error == Overflow
  {
    if INT64_MIN <= x <= INT64_MAX then Ok(x) else Err(Overflow)
  }
}
