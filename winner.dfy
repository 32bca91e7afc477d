/**
 * Winner resolution (`calculateWinner` in major.js): which segment sits under
 * the fixed pointer once the wheel has turned by the accumulated rotation, and
 * whether that is the number the player guessed.
 *
 * Turning the wheel clockwise by R degrees moves the point drawn at angle a to
 * a + R. The pointer is at the top, 270 degrees in the drawing's convention,
 * so it reads the wheel at the angle a with a + R = 270 modulo 360.
 */
module Winner {
  import opened JsMath
  import opened Layout

  const PointerAngle: real := 270.0

  /** The angle, in the unrotated wheel's own frame, that sits under the pointer. */
  function EffectiveAngle(totalRotation: real): (a: real)
    ensures 0.0 <= a < 360.0
  {
    var normalizedRotation := Rem360(totalRotation);
    var effectiveAngle := Rem360(PointerAngle - normalizedRotation);
    if effectiveAngle < 0.0 then effectiveAngle + 360.0 else effectiveAngle
  }

  /** The 0-based index of the winning segment. */
  function WinningIndex(totalRotation: real): (i: int)
    ensures 0 <= i < TotalSegments
  {
    SegmentIndexOf(EffectiveAngle(totalRotation))
  }

  /** The winning number, as written on the segment's label. */
  function WinningNumber(totalRotation: real): (n: int)
    ensures 1 <= n <= TotalSegments
    ensures n == SegmentAt(WinningIndex(totalRotation)).number
  {
    WinningIndex(totalRotation) + 1
  }

  /** What the result message reports: a win or a loss, always naming the winning number. */
  datatype Outcome = Win(number: int) | Loss(number: int)

  function CalculateWinner(totalRotation: real, userGuess: int): (o: Outcome)
    ensures o.number == WinningNumber(totalRotation) && 1 <= o.number <= TotalSegments
    ensures o.Win? <==> WinningNumber(totalRotation) == userGuess
  {
    var winningNumber := WinningNumber(totalRotation);
    if winningNumber == userGuess then Win(winningNumber) else Loss(winningNumber)
  }

  /**
   * Whatever the sign of the rotation, the two truncated remainders and the
   * fix-up of a negative result compute the mathematical remainder of
   * pointer angle minus rotation.
   */
  lemma EffectiveAngleIsPointerOffset(totalRotation: real)
    ensures EffectiveAngle(totalRotation) == Mod360(PointerAngle - totalRotation)
  {
    var t1 := Trunc(totalRotation / 360.0);
    var n := Rem360(totalRotation);
    assert n == totalRotation - 360.0 * t1 as real;
    var t2 := Trunc((PointerAngle - n) / 360.0);
    var e := Rem360(PointerAngle - n);
    assert e == PointerAngle - totalRotation + 360.0 * (t1 - t2) as real;
    if e < 0.0 {
      Mod360Unique(PointerAngle - totalRotation, e + 360.0, t2 - t1 - 1);
    } else {
      Mod360Unique(PointerAngle - totalRotation, e, t2 - t1);
    }
  }

  /** The pointer reads the wheel-frame angle `a` that the rotation carries to 270 degrees. */
  lemma PointerReadsAngle(totalRotation: real, a: real, k: int)
    requires 0.0 <= a < 360.0
    requires a + totalRotation == PointerAngle + 360.0 * k as real
    ensures EffectiveAngle(totalRotation) == a
  {
    EffectiveAngleIsPointerOffset(totalRotation);
    Mod360Unique(PointerAngle - totalRotation, a, -k);
  }

  /** Extra whole turns, forward or backward, never change the winner, for negative rotations too. */
  lemma WinnerPeriodic(totalRotation: real, k: int)
    ensures EffectiveAngle(totalRotation + 360.0 * k as real) == EffectiveAngle(totalRotation)
    ensures WinningNumber(totalRotation + 360.0 * k as real) == WinningNumber(totalRotation)
  {
    EffectiveAngleIsPointerOffset(totalRotation);
    EffectiveAngleIsPointerOffset(totalRotation + 360.0 * k as real);
    Mod360Periodic(PointerAngle - totalRotation, -k);
    assert PointerAngle - (totalRotation + 360.0 * k as real) == PointerAngle - totalRotation + 360.0 * (-k) as real;
  }

  /** One more full turn gives the same winner. */
  lemma WinnerFullTurn(totalRotation: real)
    ensures WinningNumber(totalRotation + 360.0) == WinningNumber(totalRotation)
  {
    WinnerPeriodic(totalRotation, 1);
  }

  /** The winning index is the one segment of the layout whose span holds the angle under the pointer. */
  lemma WinnerIsSegmentUnderPointer(totalRotation: real, i: nat)
    requires i < TotalSegments
    ensures InSegment(i, EffectiveAngle(totalRotation)) <==> i == WinningIndex(totalRotation)
  {
    SegmentContaining(i, EffectiveAngle(totalRotation));
  }

  /** Unturned, the pointer reads 270 degrees: segment index 12, number 13. */
  lemma WinnerAtZero()
    ensures EffectiveAngle(0.0) == 270.0
    ensures WinningIndex(0.0) == 12 && WinningNumber(0.0) == 13
  {
  }

  /** Turned by 270 degrees, the pointer reads angle 0: the first segment, number 1. */
  lemma WinnerAt270()
    ensures EffectiveAngle(270.0) == 0.0
    ensures WinningIndex(270.0) == 0 && WinningNumber(270.0) == 1
  {
  }
}
