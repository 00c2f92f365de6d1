/** Rotation-to-cursor index (`useCursorSlice` in use-hooks.ts):
    `(Math.round(to360(currentRotation.z) / 45) + n) % rotationCursors.length`.
    The body of `to360` is not part of this model; it enters as a parameter whose
    results lie in [0, 360), and the length of the cursor list as `len`. */
module Cursors {
  import opened Geometry

  /** An angle already brought into [0, 360). */
  type Degrees360 = r: real | 0.0 <= r < 360.0

  function Abs(d: int): nat {
    if d < 0 then -d else d
  }

  /** `Math.round`: the nearest integer, a tie going toward +infinity. */
  function JsRound(x: real): (r: int)
    ensures r as real - 0.5 <= x < r as real + 0.5
  {
    (x + 0.5).Floor
  }

  /** The unique integer in the half-open window around `x` is what `JsRound` returns. */
  lemma JsRoundUnique(x: real, k: int)
    requires k as real - 0.5 <= x < k as real + 0.5
    ensures JsRound(x) == k
  {
  }

  /** Division rounded toward zero, the quotient that goes with JavaScript's `%`. */
  function TruncDiv(a: int, d: int): int
    requires d != 0
  {
    if a >= 0 then a / d else -((-a) / d)
  }

  /** JavaScript `%` on integers: the remainder of truncating division, so it has
      the sign of the dividend (Dafny's `%` is Euclidean and never negative). */
  function JsRem(a: int, d: int): (r: int)
    requires d != 0
    ensures -(Abs(d) as int) < r < Abs(d)
    ensures a >= 0 ==> r >= 0
    ensures a <= 0 ==> r <= 0
    ensures a == d * TruncDiv(a, d) + r
  {
    if a >= 0 then a % d else -((-a) % d)
  }

  /** The 45-degree sector nearest the normalized angle: 0 to 8, where 8 is the
      sector of 360 degrees, met by angles from 337.5 up. */
  function Sector(angle: Degrees360): (s: int)
    ensures 0 <= s <= 8
    ensures 45.0 * s as real - 22.5 <= angle < 45.0 * s as real + 22.5
  {
    JsRound(angle / 45.0)
  }

  /** `useCursorSlice(currentRotation)(n)` for a cursor list of length `len`.
      With a non-negative offset the index lies in [0, len); a negative sum
      gives a negative index, as JavaScript's `%` does. */
  function CursorSlice(to360: real -> Degrees360, currentRotation: Rotation, len: int, n: int): (index: int)
    requires len > 0
    ensures -len < index < len
    ensures n >= 0 ==> 0 <= index < len
    ensures Sector(to360(currentRotation.z)) + n >= 0 ==> index == (Sector(to360(currentRotation.z)) + n) % len
    ensures Sector(to360(currentRotation.z)) + n == len * TruncDiv(Sector(to360(currentRotation.z)) + n, len) + index
  {
    JsRem(Sector(to360(currentRotation.z)) + n, len)
  }

  /** Worked values of the sector and of the index with eight cursors. */
  lemma SectorExamples()
    ensures Sector(0.0) == 0 && Sector(44.0) == 1 && Sector(46.0) == 1
    ensures Sector(22.5) == 1 && Sector(350.0) == 8
    ensures JsRem(Sector(350.0) + 0, 8) == 0 && JsRem(Sector(90.0) + 2, 8) == 4
  {
    JsRoundUnique(44.0 / 45.0, 1);
    JsRoundUnique(46.0 / 45.0, 1);
    JsRoundUnique(22.5 / 45.0, 1);
    JsRoundUnique(350.0 / 45.0, 8);
    JsRoundUnique(90.0 / 45.0, 2);
  }

  /** A negative offset from sector 0 yields a negative index; it is not wrapped into [0, len). */
  lemma NegativeOffsetNotWrapped(currentRotation: Rotation)
    ensures CursorSlice((a: real) => 0.0, currentRotation, 8, -1) == -1
  {
  }
}
