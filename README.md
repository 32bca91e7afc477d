# Lucky Roller wheel, modelled in Dafny

Lucky Roller is a browser game: the player guesses a number from 1 to 16 and
spins a wheel of 16 numbered, coloured segments. The wheel turns by a random
amount of at least three full turns. When the 4-second animation ends, the
number under the fixed pointer at the top is compared with the guess, and the
player sees either a win or a loss message. Both messages name the winning
number.

This project models the game's logic in `major.js`:

- `jsmath.dfy` (module `JsMath`): JavaScript's remainder `%`, whose quotient is
  truncated toward zero so the result takes the dividend's sign, and the
  Euclidean remainder it is compared with. Angles are exact `real`s.
- `layout.dfy` (module `Layout`): the constants `totalSegments`, `segmentAngle`
  and `colors`. For each segment it computes the start, end and middle angles,
  the label rotation, the label number and the palette index of the fill colour. `InitWheel` is the
  layout loop of `initWheel`. The lemmas show that the segments tile
  [0, 360) with no gap and no overlap.
- `winner.dfy` (module `Winner`): `calculateWinner` as functions. It covers the
  effective angle under the pointer, the winning index and number, and the
  win/loss outcome. The lemmas prove the range, periodicity in whole turns
  for every real rotation, the boundary values, and agreement with the layout.
- `game.dfy` (module `Game`): the page-wide state `currentRotation` and
  `isSpinning` as the class `Wheel`. `Spin` is `spinWheel`. `Finish` is the
  callback that `spinWheel` schedules for the end of the animation.

Inputs the code takes from its environment become parameters:

- The two `Math.random()` draws of a spin are arguments `r1` and `r2` in [0, 1).
- The guess, as `parseInt` reads the input field, is an `Option<int>`. NaN is
  `None`.

Two points where the comments in `major.js` and its code differ, or where a
reader might expect a different constant; the model follows the code:

- The comment at major.js:106 says the rotation is normalised to [0, 360), but
  the `%` at major.js:107 gives a value in (-360, 0] for a negative rotation.
  `EffectiveAngle` keeps the code's operator. `EffectiveAngleIsPointerOffset`
  shows that the final angle is the same either way.
- Guess validation compares with the literal 16, not with `totalSegments`. The
  model does the same.

## Model

| member | source | states |
|---|---|---|
| `JsMath.Trunc` | major.js:107 | the quotient of JavaScript's `%` is truncated toward zero: at most `x` for `x >= 0`, at least `x` for `x < 0`, within 1 of it |
| `JsMath.Rem360` | major.js:107-112 | `x % 360` lies in [0, 360) for non-negative `x` and in (-360, 0] for negative `x` |
| `JsMath.Rem360Congruent` | major.js:107 | `x % 360` differs from `x` by whole turns: both have the same Euclidean remainder |
| `Layout.SegmentAt` | major.js:23-52 | one iteration of the layout loop: start `i * 22.5`, end `(i + 1) * 22.5`, label anchor half a segment past the start, label rotation anchor + 90, number `i + 1`, palette index `i % colors.length`; its contract states the span is one segment angle wide, the label anchor is the midpoint of the span and so lies strictly inside it, and the palette index is a valid entry |
| `Layout.SegmentIndexOf` | major.js:116 | `Math.floor(a / segmentAngle)` for an angle in [0, 360) is a segment index in [0, 16) |
| `Layout.SegmentShape` | major.js:21-52 | segment `i` starts at `i * 22.5` and is 22.5 degrees wide, its label anchor is the midpoint of its span and so lies strictly inside it, its label is turned 90 degrees past the anchor angle, its number is `i + 1` in [1, 16], and its palette index `i % colors.length` is `i` |
| `Layout.SegmentsTile` | major.js:21-24 | the first segment starts at 0, the last ends at 360, and each segment ends where the next one starts |
| `Layout.SegmentContaining` | major.js:23-24 | an angle in [0, 360) lies in segment `i`'s [start, end) exactly when `i` is its floor-divided index: every angle is in exactly one segment |
| `Layout.SegmentsDisjoint` | major.js:23-24 | no angle lies in two different segments |
| `Layout.InitWheel` | major.js:18-58 | the layout loop yields 16 segments in index order, tiling [0, 360) edge to edge, numbered 1 to 16, taking the palette entries in order |
| `Winner.EffectiveAngle` | major.js:107-113 | after the negative fix-up the angle under the pointer lies in [0, 360) for every real rotation |
| `Winner.WinningIndex` | major.js:116 | the winning index lies in [0, 16) |
| `Winner.WinningNumber` | major.js:116-117 | the winning number lies in [1, 16] and is the number on the label of the winning segment |
| `Winner.CalculateWinner` | major.js:99-128 | the outcome names the winning number, and it is a win exactly when that number equals the guess |
| `Winner.EffectiveAngleIsPointerOffset` | major.js:106-113 | for rotations of either sign, the two truncated remainders and the fix-up give the Euclidean remainder of 270 minus the rotation |
| `Winner.PointerReadsAngle` | major.js:100-113 | the angle under the pointer is the wheel-frame angle that the rotation carries to 270 degrees, modulo whole turns |
| `Winner.WinnerPeriodic` | major.js:107-117 | adding any whole number of turns, positive or negative, leaves the effective angle and the winner unchanged, for negative rotations too |
| `Winner.WinnerFullTurn` | major.js:107-117 | rotations R and R + 360 give the same winner |
| `Winner.WinnerIsSegmentUnderPointer` | major.js:116 | the winning index is the unique segment whose [start, end) holds the angle under the pointer |
| `Winner.WinnerAtZero` | major.js:106-117 | rotation 0 gives effective angle 270, index 12, number 13 |
| `Winner.WinnerAt270` | major.js:106-117 | rotation 270 gives effective angle 0, index 0, number 1 |
| `Game.ValidGuess` | major.js:68 | the negated validation guard `!userGuess \|\| userGuess < 1 \|\| userGuess > 16`, with NaN as `None`: it accepts exactly a number in [1, 16] |
| `Game.ValidGuessRange` | major.js:68 | the boundary cases of validation: guesses 1 and 16 pass, while a missing guess, 0 and 17 fail |
| `Game.RandomOffset` | major.js:83 | the random offset is a whole number of degrees in [0, 360), the floor of draw times 360 |
| `Game.SpinIncrease` | major.js:82-86 | one spin adds `360 * (3 + 2 * r1)` plus the offset, which is at least 1080 and below 2160 degrees |
| `Game.Wheel.constructor` | major.js:12-13 | the wheel starts unturned and idle |
| `Game.Wheel.Spin` | major.js:61-90 | a spin while spinning is ignored and changes nothing; an invalid guess is rejected, changes nothing and leaves the wheel idle; a valid guess sets spinning, records the guess and adds the spin increase; the rotation never decreases |
| `Game.Wheel.Finish` | major.js:92-96 | the callback resolves the winner against the rotation the spin reached and the captured guess, clears the spinning flag and leaves the rotation unchanged; the captured guess is in [1, 16], so a win names the guess, and the rotation it resolves is non-negative |
| `Game.SpinFromStartScenario` | major.js:82-96 | from the initial state, guess 13 with both draws 0 turns the wheel to 1080 degrees and wins with 13 |

## Left out

- DOM and SVG output are not modelled. This covers the SVG path and text markup, `innerHTML`, `showResult`, the CSS rotate transform, the button's disabled state, focus and the `opacity-0` class. They are display side effects. An outcome carries only the kind (win or loss) and the number, not the message text.
- The wedge and label coordinates (`Math.cos`, `Math.sin`, radii 95 and 75) are not modelled. They are floating-point trigonometry used only for drawing.
- `triggerConfetti` is not modelled. It is a purely cosmetic DOM effect with its own randomness and timers, and it does not touch the game state.
- `Math.random` is replaced by parameters in [0, 1). `parseInt` is replaced by an `Option<int>` argument.
- The 4-second `setTimeout` delay is not modelled. The callback is the explicit step `Finish`, which can run only while a spin is in progress.
- IEEE-754 rounding is not modelled; angles are exact reals. The negative fix-up at major.js:113 is exact in doubles as well, so exact reals lose nothing there.
