/**
 * The calibration curves of the watchdog firmware: polynomials of degree one to four
 * in the ADC reading, with a cutoff below 0.5 and a zero leading coefficient handing
 * the evaluation to the curve one degree lower.
 */
module Calibration {

  /** `pow(x, n)` for a natural exponent. */
  function Pow(x: real, n: nat): real
  {
    if n == 0 then 1.0 else x * Pow(x, n - 1)
  }

  /** Inputs below this value read as 0. */
  const Cutoff: real := 0.5

  /** Reference definition: the polynomial with coefficients `cs` (constant term first),
      evaluated by Horner's rule. */
  function Horner(cs: seq<real>, x: real): real
  {
    if |cs| == 0 then 0.0 else cs[0] + x * Horner(cs[1..], x)
  }

  /** `calCurve1`: x1 * x + o. */
  function CalCurve1(x1: real, o: real, x: real): (y: real)
    ensures x < Cutoff ==> y == 0.0
  {
    if x < Cutoff then 0.0 else x1 * x + o
  }

  /** `calCurve2`: falls back to `calCurve1` when the x^2 coefficient is 0. */
  function CalCurve2(x2: real, x1: real, o: real, x: real): (y: real)
    ensures x < Cutoff ==> y == 0.0
  {
    if x2 == 0.0 then CalCurve1(x1, o, x)
    else if x < Cutoff then 0.0
    else x2 * Pow(x, 2) + x1 * x + o
  }

  /** `calCurve3`: falls back to `calCurve2` when the x^3 coefficient is 0. */
  function CalCurve3(x3: real, x2: real, x1: real, o: real, x: real): (y: real)
    ensures x < Cutoff ==> y == 0.0
  {
    if x3 == 0.0 then CalCurve2(x2, x1, o, x)
    else if x < Cutoff then 0.0
    else x3 * Pow(x, 3) + x2 * Pow(x, 2) + x1 * x + o
  }

  /** `calCurve4`: falls back to `calCurve3` when the x^4 coefficient is 0. */
  function CalCurve4(x4: real, x3: real, x2: real, x1: real, o: real, x: real): (y: real)
    ensures x < Cutoff ==> y == 0.0
  {
    if x4 == 0.0 then CalCurve3(x3, x2, x1, o, x)
    else if x < Cutoff then 0.0
    else x4 * Pow(x, 4) + x3 * Pow(x, 3) + x2 * Pow(x, 2) + x1 * x + o
  }

  lemma PowSmall(x: real)
    ensures Pow(x, 2) == x * x && Pow(x, 3) == x * (x * x) && Pow(x, 4) == x * (x * (x * x))
  {
    assert Pow(x, 1) == x * Pow(x, 0) == x;
    assert Pow(x, 2) == x * Pow(x, 1);
    assert Pow(x, 3) == x * Pow(x, 2);
    assert Pow(x, 4) == x * Pow(x, 3);
  }

  /** Horner's rule on [o, x1, x2, x3, x4] is the power sum the curves write out. */
  lemma HornerQuartic(x4: real, x3: real, x2: real, x1: real, o: real, x: real)
    ensures Horner([o, x1, x2, x3, x4], x)
            == x4 * Pow(x, 4) + x3 * Pow(x, 3) + x2 * Pow(x, 2) + x1 * x + o
  {
    var cs := [o, x1, x2, x3, x4];
    assert cs[1..] == [x1, x2, x3, x4] && [x1, x2, x3, x4][1..] == [x2, x3, x4];
    assert [x2, x3, x4][1..] == [x3, x4] && [x3, x4][1..] == [x4] && [x4][1..] == [];
    assert Horner([x4], x) == x4 + x * 0.0;
    assert Horner([x3, x4], x) == x3 + x * Horner([x4], x);
    assert Horner([x2, x3, x4], x) == x2 + x * Horner([x3, x4], x);
    assert Horner([x1, x2, x3, x4], x) == x1 + x * Horner([x2, x3, x4], x);
    assert Horner(cs, x) == o + x * Horner([x1, x2, x3, x4], x);
    var a := x3 + x * x4;
    assert Horner([x3, x4], x) == a;
    assert x * a == x3 * x + x4 * (x * x);
    var b := x2 + x * a;
    assert Horner([x2, x3, x4], x) == b;
    assert x * b == x2 * x + x * (x * a);
    assert x * b == x2 * x + x3 * (x * x) + x4 * (x * (x * x));
    var c := x1 + x * b;
    assert Horner([x1, x2, x3, x4], x) == c;
    assert x * c == x1 * x + x * (x * b);
    assert x * c == x1 * x + x2 * (x * x) + x3 * (x * (x * x)) + x4 * (x * (x * (x * x)));
    PowSmall(x);
  }

  /** Above the cutoff every curve is its polynomial, whichever leading coefficients are 0:
      the fallback to a lower curve drops only terms that are 0 anyway. */
  lemma CalCurve4IsPolynomial(x4: real, x3: real, x2: real, x1: real, o: real, x: real)
    requires x >= Cutoff
    ensures CalCurve4(x4, x3, x2, x1, o, x) == Horner([o, x1, x2, x3, x4], x)
  {
    HornerQuartic(x4, x3, x2, x1, o, x);
  }

  /** The lower curves are the quartic with their missing coefficients set to 0. */
  lemma LowerCurvesAreQuartics(x3: real, x2: real, x1: real, o: real, x: real)
    ensures CalCurve3(x3, x2, x1, o, x) == CalCurve4(0.0, x3, x2, x1, o, x)
    ensures CalCurve2(x2, x1, o, x) == CalCurve4(0.0, 0.0, x2, x1, o, x)
    ensures CalCurve1(x1, o, x) == CalCurve4(0.0, 0.0, 0.0, x1, o, x)
  {
  }

  /** With every coefficient 0 the curve is the constant o above the cutoff. */
  lemma ZeroCoefficientsGiveOffset(o: real, x: real)
    requires x >= Cutoff
    ensures CalCurve4(0.0, 0.0, 0.0, 0.0, o, x) == o
  {
  }
}
