/**
 * The spin state machine (`spinWheel` and the callback it schedules in
 * major.js). The page-wide variables `currentRotation` and `isSpinning`
 * become the fields of a `Wheel`. The callback that fires when the animation
 * ends is the separate step `Finish`; the guess it captured is kept in
 * `pendingGuess` until then.
 */
module Game {
  import opened Layout
  import opened Winner

  /** The guess as `parseInt` reads the input field: `None` when it yields NaN. */
  datatype Option<T> = None | Some(value: T)

  /** The three ways a press of the spin button ends. */
  datatype SpinStatus =
    | Ignored    // a spin is already running: silently dropped
    | Rejected   // the guess failed validation: an error message, no spin
    | Started    // the wheel was set turning

  /** The guard `!userGuess || userGuess < 1 || userGuess > 16`, negated. NaN and 0 are falsy. */
  predicate ValidGuess(userGuess: Option<int>): (ok: bool)
    ensures ok <==> userGuess.Some? && 1 <= userGuess.value <= TotalSegments
  {
    match userGuess
    case None => false
    case Some(g) => !(g == 0 || g < 1 || g > 16)
  }

  /** The boundary cases: 1 and 16 are accepted; a missing guess, 0 and 17 are not. */
  lemma ValidGuessRange()
    ensures ValidGuess(Some(1)) && ValidGuess(Some(16))
    ensures !ValidGuess(None) && !ValidGuess(Some(0)) && !ValidGuess(Some(17))
  {
  }

  /** `Math.floor(Math.random() * 360)` for the draw `r`: a whole number of degrees below 360. */
  function RandomOffset(r: real): (offset: int)
    requires 0.0 <= r < 1.0
    ensures 0 <= offset < 360
    ensures offset as real <= r * 360.0 < offset as real + 1.0
  {
    (r * 360.0).Floor
  }

  /**
   * How far one spin turns the wheel, for the two `Math.random()` draws:
   * `360 * (3 + r1 * 2)` degrees of whole and partial turns plus the offset.
   * At least three full turns, and less than six.
   */
  function SpinIncrease(r1: real, r2: real): (d: real)
    requires 0.0 <= r1 < 1.0 && 0.0 <= r2 < 1.0
    ensures 1080.0 <= d < 2160.0
    ensures d - RandomOffset(r2) as real == 360.0 * (3.0 + r1 * 2.0)
  {
    var extraSpins := 360.0 * (3.0 + r1 * 2.0);
    extraSpins + RandomOffset(r2) as real
  }

  class Wheel {
    var currentRotation: real
    var isSpinning: bool
    var pendingGuess: int

    /** The rotation only ever grows from 0; a running spin holds an accepted guess. */
    ghost predicate Valid()
      reads this
    {
      0.0 <= currentRotation && (isSpinning ==> 1 <= pendingGuess <= TotalSegments)
    }

    /** The state at page load: unturned and idle. */
    constructor ()
      ensures Valid()
      ensures currentRotation == 0.0 && !isSpinning
    {
      currentRotation := 0.0;
      isSpinning := false;
      pendingGuess := 0;
    }

    /**
     * A press of the spin button with the parsed guess and the two random
     * draws. Re-entry while spinning and an invalid guess leave the state
     * as it was; an accepted guess starts a spin and schedules `Finish`.
     */
    method Spin(userGuess: Option<int>, r1: real, r2: real) returns (status: SpinStatus)
      requires Valid()
      requires 0.0 <= r1 < 1.0 && 0.0 <= r2 < 1.0
      modifies this
      ensures Valid()
      ensures old(isSpinning) ==> status == Ignored
      ensures !old(isSpinning) && !ValidGuess(userGuess) ==> status == Rejected && !isSpinning
      ensures status != Started ==>
        currentRotation == old(currentRotation) && isSpinning == old(isSpinning) && pendingGuess == old(pendingGuess)
      ensures !old(isSpinning) && ValidGuess(userGuess) ==>
        status == Started && isSpinning && pendingGuess == userGuess.value &&
        currentRotation == old(currentRotation) + SpinIncrease(r1, r2)
      ensures old(currentRotation) <= currentRotation
    {
      if isSpinning {
        return Ignored;
      }
      if !ValidGuess(userGuess) {
        return Rejected;
      }
      isSpinning := true;
      var extraSpins := 360.0 * (3.0 + r1 * 2.0);
      var randomOffset := (r2 * 360.0).Floor;
      currentRotation := currentRotation + extraSpins + randomOffset as real;
      pendingGuess := userGuess.value;
      status := Started;
    }

    /**
     * The scheduled callback, which exists only while a spin runs: resolve
     * the winner against the rotation the spin reached and become idle.
     */
    method Finish() returns (outcome: Outcome)
      requires Valid() && isSpinning
      modifies this
      ensures Valid() && !isSpinning
      ensures currentRotation == old(currentRotation) && pendingGuess == old(pendingGuess)
      ensures outcome == CalculateWinner(currentRotation, pendingGuess)
      ensures 1 <= pendingGuess <= TotalSegments && 0.0 <= currentRotation
      ensures outcome.Win? ==> outcome.number == pendingGuess
    {
      outcome := CalculateWinner(currentRotation, pendingGuess);
      isSpinning := false;
    }
  }

  /**
   * From the initial state, guessing 13 with both draws 0 turns the wheel by
   * exactly three full turns, to 1080 degrees, where 13 is under the pointer.
   */
  method SpinFromStartScenario() returns (status: SpinStatus, rotation: real, outcome: Outcome)
    ensures status == Started && rotation == 1080.0
    ensures outcome == Win(13)
  {
    var wheel := new Wheel();
    status := wheel.Spin(Some(13), 0.0, 0.0);
    rotation := wheel.currentRotation;
    outcome := wheel.Finish();
    WinnerAtZero();
    WinnerPeriodic(0.0, 3);
  }
}
