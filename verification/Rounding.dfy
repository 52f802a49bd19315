/** Rounding half to even, as round() does, on exact reals. */
module Rounding {

  function RoundHalfEven(x: real): int {
    var floor := x.Floor;
    var fraction := x - floor as real;
    if fraction < 0.5 || (fraction == 0.5 && floor % 2 == 0) then floor else floor + 1
  }

  function Round3(x: real): real {
    RoundHalfEven(x * 1000.0) as real / 1000.0
  }

  function Round6(x: real): real {
    RoundHalfEven(x * 1000000.0) as real / 1000000.0
  }

  function Round4(x: real): real {
    RoundHalfEven(x * 10000.0) as real / 10000.0
  }

  /** The nearest integer. */
  lemma RoundHalfEvenNearest(x: real)
    ensures -0.5 <= RoundHalfEven(x) as real - x <= 0.5
  {
  }

  /** The even one when two are equally near. */
  lemma RoundHalfEvenTie(n: int)
    ensures RoundHalfEven(n as real + 0.5) == if n % 2 == 0 then n else n + 1
  {
    assert (n as real + 0.5).Floor == n;
  }

  lemma Round4Close(x: real)
    ensures -0.00005 <= Round4(x) - x <= 0.00005
  {
    RoundHalfEvenNearest(x * 10000.0);
  }

  lemma Round3Close(x: real)
    ensures -0.0005 <= Round3(x) - x <= 0.0005
  {
    RoundHalfEvenNearest(x * 1000.0);
  }

  lemma Round6Close(x: real)
    ensures -0.0000005 <= Round6(x) - x <= 0.0000005
  {
    RoundHalfEvenNearest(x * 1000000.0);
  }

  lemma RoundMonotone(x: real, y: real)
    requires x <= y
    ensures RoundHalfEven(x) <= RoundHalfEven(y)
  {
  }

  lemma {:induction false} Round3Monotone(x: real, y: real)
    requires x <= y
    ensures Round3(x) <= Round3(y)
  {
    RoundMonotone(x * 1000.0, y * 1000.0);
  }
}
