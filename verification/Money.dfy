/** Currency rounding, over the reals. */
module Money {
  function Abs(x: real): real { if x < 0.0 then -x else x }

  /** At most `slack` apart. */
  predicate Within(x: real, y: real, slack: real) { -slack <= x - y <= slack }

  /** The nearest integer, halves away from zero. */
  function Round(x: real): int {
    if x >= 0.0 then (x + 0.5).Floor else -((-x + 0.5).Floor)
  }

  /** The nearest cent. */
  function Round2(f: real): real { Round(f * 100.0) as real / 100.0 }

  predicate WholeCents(f: real) { (f * 100.0).Floor as real == f * 100.0 }

  lemma RoundIsNearest(x: real)
    ensures Abs(Round(x) as real - x) <= 0.5
    ensures x >= 0.0 ==> Round(x) as real - x > -0.5
    ensures x <= 0.0 ==> Round(x) as real - x < 0.5
  {
  }

  lemma RoundInteger(n: int)
    ensures Round(n as real) == n
  {
  }

  lemma RoundMonotone(x: real, y: real)
    requires x <= y
    ensures Round(x) <= Round(y)
  {
  }

  lemma RoundShift(x: real, n: nat)
    requires x >= 0.0
    ensures Round(x + n as real) == Round(x) + n
  {
    assert (x + n as real + 0.5) - n as real == x + 0.5;
    var a, b := (x + 0.5).Floor, (x + n as real + 0.5).Floor;
    assert (a + n) as real <= x + n as real + 0.5 < (a + n + 1) as real;
  }

  /** Rounding to cents moves an amount by at most half a cent, and by half a cent only away
      from zero; it yields whole cents, and changes nothing that already was. */
  lemma Round2Facts(f: real)
    ensures Within(Round2(f), f, 0.005)
    ensures Abs(Round2(f) - f) == 0.005 ==> Abs(Round2(f)) > Abs(f)
    ensures WholeCents(Round2(f))
    ensures WholeCents(f) <==> Round2(f) == f
  {
    RoundIsNearest(f * 100.0);
    RoundInteger(Round(f * 100.0));
    RoundInteger((f * 100.0).Floor);
    assert Round2(f) * 100.0 == Round(f * 100.0) as real;
  }

  lemma Round2Monotone(f: real, g: real)
    requires f <= g
    ensures Round2(f) <= Round2(g)
  {
    RoundMonotone(f * 100.0, g * 100.0);
  }

  lemma CentsAdd(f: real, g: real)
    requires WholeCents(f) && WholeCents(g)
    ensures WholeCents(f + g) && WholeCents(f - g)
  {
    var a, b := (f * 100.0).Floor, (g * 100.0).Floor;
    CentsOf(f + g, a + b);
    CentsOf(f - g, a - b);
  }

  lemma CentsOf(f: real, n: int)
    requires f * 100.0 == n as real
    ensures WholeCents(f)
  {
  }

  function Sum(xs: seq<real>): real {
    if xs == [] then 0.0 else Sum(xs[..|xs| - 1]) + xs[|xs| - 1]
  }

  function Rounded(xs: seq<real>): (r: seq<real>)
    ensures |r| == |xs|
  {
    seq(|xs|, i requires 0 <= i < |xs| => Round2(xs[i]))
  }

  predicate AllCents(xs: seq<real>) {
    forall i :: 0 <= i < |xs| ==> WholeCents(xs[i])
  }

  lemma RoundedInit(xs: seq<real>)
    requires xs != []
    ensures Sum(Rounded(xs)) == Sum(Rounded(xs[..|xs| - 1])) + Round2(xs[|xs| - 1])
  {
    assert Rounded(xs)[..|xs| - 1] == Rounded(xs[..|xs| - 1]);
  }

  /** Rounding each of n amounts moves their sum by at most half a cent for each. */
  lemma {:induction false} RoundedSumIsNear(xs: seq<real>)
    ensures Within(Sum(Rounded(xs)), Sum(xs), 0.005 * |xs| as real)
  {
    if xs != [] {
      RoundedSumIsNear(xs[..|xs| - 1]);
      RoundedInit(xs);
      Round2Facts(xs[|xs| - 1]);
    }
  }

  lemma {:induction false} RoundedSumInCents(xs: seq<real>)
    ensures WholeCents(Sum(Rounded(xs)))
    ensures AllCents(xs) ==> Sum(Rounded(xs)) == Sum(xs)
  {
    if xs != [] {
      RoundedSumInCents(xs[..|xs| - 1]);
      RoundedInit(xs);
      Round2Facts(xs[|xs| - 1]);
      CentsAdd(Sum(Rounded(xs[..|xs| - 1])), Round2(xs[|xs| - 1]));
    }
  }
}
