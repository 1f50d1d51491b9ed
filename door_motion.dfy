/**
 * The smooth door motion of the medicine box: the servo is driven from the
 * current angle to a target angle in steps of half a degree, each step
 * writing the truncated position to the servo, and finally snapped to the
 * target.
 *
 * Every position the motion passes through is a whole number of half
 * degrees, so positions are modelled exactly as integers counting half
 * degrees ("half units"): a float position p is the integer 2 * p.
 */
module DoorMotion {

  function Abs(x: int): nat {
    if x < 0 then -x else x
  }

  function Min(a: int, b: int): int { if a <= b then a else b }

  function Max(a: int, b: int): int { if a <= b then b else a }

  /** Sign of every step: +0.5 degree, flipped to -0.5 only when the target lies below the start. */
  function Direction(from: int, to: int): int {
    if to < from then -1 else 1
  }

  /** The number of iterations of the stepping loop from `from` to `to`. */
  function Iterations(from: int, to: int): nat {
    if from == to then 0 else 2 * Abs(to - from) - 1
  }

  /** The loop's position after `k` steps, in half units. */
  function HalfPosition(from: int, to: int, k: nat): int {
    2 * from + Direction(from, to) * k
  }

  /** The C cast `(int)` of a position given in half units: truncation toward zero. */
  function TruncateHalf(h: int): int {
    if h >= 0 then h / 2 else -((-h) / 2)
  }

  /** The angles the loop writes to the servo, one per iteration. */
  function Path(from: int, to: int): seq<int> {
    seq(Iterations(from, to), k requires 0 <= k => TruncateHalf(HalfPosition(from, to, k + 1)))
  }

  /** Every angle written by one smooth motion: the loop's writes, then the snap to the target. */
  function Writes(from: int, to: int): seq<int> {
    Path(from, to) + [to]
  }

  /** The snap write comes last, so the last angle the servo receives is the target. */
  lemma WritesEndAtTarget(from: int, to: int)
    ensures |Writes(from, to)| == Iterations(from, to) + 1
    ensures Writes(from, to)[|Writes(from, to)| - 1] == to
  {
  }

  /** Starting at the target, the loop does not run and only the snap is written. */
  lemma NoStepsAtTarget(angle: int)
    ensures Iterations(angle, angle) == 0
    ensures Writes(angle, angle) == [angle]
  {
  }

  /**
   * A motion between two different angles takes 2 * |to - from| - 1 steps, and
   * the last loop position is half a degree short of the target.
   */
  lemma StepCount(from: int, to: int)
    requires from != to
    ensures Iterations(from, to) == 2 * Abs(to - from) - 1
    ensures Abs(HalfPosition(from, to, Iterations(from, to)) - 2 * to) == 1
  {
  }

  /**
   * Each loop position lies strictly between start and target, and each step
   * brings the position exactly half a degree closer to the target.
   */
  lemma PositionsStrictlyBetween(from: int, to: int, k: nat)
    requires 1 <= k <= Iterations(from, to)
    ensures 2 * Min(from, to) < HalfPosition(from, to, k) < 2 * Max(from, to)
    ensures Abs(HalfPosition(from, to, k) - 2 * to) == Abs(HalfPosition(from, to, k - 1) - 2 * to) - 1
  {
  }

  /** Truncation toward zero never reverses the order of two positions. */
  lemma TruncateHalfMonotone(a: int, b: int)
    requires a <= b
    ensures TruncateHalf(a) <= TruncateHalf(b)
  {
  }

  /** A position between two whole angles truncates to an angle between them. */
  lemma TruncateHalfBetween(h: int, lo: int, hi: int)
    requires 2 * lo <= h <= 2 * hi
    ensures lo <= TruncateHalf(h) <= hi
  {
  }

  /** Every written angle stays within the range spanned by start and target. */
  lemma WritesWithinRange(from: int, to: int, i: nat)
    requires i < |Writes(from, to)|
    ensures Min(from, to) <= Writes(from, to)[i] <= Max(from, to)
  {
    if i < Iterations(from, to) {
      PositionsStrictlyBetween(from, to, i + 1);
      TruncateHalfBetween(HalfPosition(from, to, i + 1), Min(from, to), Max(from, to));
    }
  }

  /**
   * The written angles are monotone: non-decreasing when opening toward a
   * larger angle, non-increasing when closing toward a smaller one.
   */
  lemma WritesMonotone(from: int, to: int, i: nat, j: nat)
    requires i <= j < |Writes(from, to)|
    ensures from <= to ==> Writes(from, to)[i] <= Writes(from, to)[j]
    ensures to < from ==> Writes(from, to)[i] >= Writes(from, to)[j]
  {
    var w := Writes(from, to);
    var n := Iterations(from, to);
    if j == n {
      WritesWithinRange(from, to, i);
    } else {
      var hi, hj := HalfPosition(from, to, i + 1), HalfPosition(from, to, j + 1);
      if from <= to {
        TruncateHalfMonotone(hi, hj);
      } else {
        TruncateHalfMonotone(hj, hi);
      }
    }
  }

  /** A full traverse between the closed and open angles writes 180 angles. */
  lemma FullTraverseLength()
    ensures |Writes(0, 90)| == 180 && |Writes(90, 0)| == 180
  {
  }
}
