/** The arithmetic that several components share. */
module Numbers {

  function Min(a: int, b: int): int {
    if a <= b then a else b
  }

  function Max(a: int, b: int): int {
    if a >= b then a else b
  }

  // Python's round: to the nearest, a half to the even neighbour.
  function Rounded(x: real): int {
    var low := x.Floor;
    var part := x - low as real;
    if part < 0.5 || (part == 0.5 && low % 2 == 0) then low else low + 1
  }

  /** Rounding goes to the nearest number, and of two equally near to the even one. */
  lemma RoundedIsNearest(x: real)
    ensures var d := Rounded(x) as real - x;
            -0.5 <= d <= 0.5 && (d == 0.5 || d == -0.5 ==> Rounded(x) % 2 == 0)
  {
  }

  lemma RoundedMonotone(x: real, y: real)
    requires x <= y
    ensures Rounded(x) <= Rounded(y)
  {
  }
}
