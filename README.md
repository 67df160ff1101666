# Pop the Lock — a Dafny model of the game simulation

Pop the Lock is a small arcade timing game. A reticle orbits a circle. When the
player presses SPACE near the target, the press counts as a hit. Each hit
reverses the sweep direction, makes the reticle faster and places the next
target in a smaller window. Fifty hits win the game. One miss loses it.

This project models the simulation in `main.py` and proves properties of it:

- `constants.dfy` (module `Constants`): the game constants of main.py:8-19.
  `Tau` is `math.tau` (6.283185307179586) taken as an exact real.
- `interpolation.dfy` (module `Interpolation`): `lerp`, and `random.uniform`.
  `random.uniform(lo, hi)` is modelled as CPython computes it,
  `lo + (hi - lo) * random()`. The value `random()` returned arrives as a
  *sample* parameter in `[0, 1)`.
- `angles.dfy` (module `Angles`): Python's floored float `%`, `modulus`,
  `angle_diff`. It also defines the two wrapped steps the game takes:
  `Stepped` (main.py:66) and `Swept` (main.py:142).
- `game.dfy` (module `PopTheLock`): the `State` enum and the difficulty curve
  (`dir`, `progress` and the lerps of main.py:63-64 and 141). It also holds the
  `Game` class. The class has the fields `state`, `angle`, `hits` and `target`,
  which its methods update in place.
- `real_arith.dfy` (module `RealArith`): small facts about real multiplication
  that the other proofs use.

`Game.Valid()` is the object invariant that every method keeps:

- both angles lie in `[0, Tau)`;
- `hits <= 50`;
- `Start` implies `hits == 0`;
- `Playing` implies `hits < 50`;
- `Win` holds exactly when `hits == 50`.

The sweep direction follows main.py:57. An even hit count gives −1 and an odd
one gives +1. It is not the other way round.

## Model

| member | source | states |
|---|---|---|
| Interpolation.LerpEnds | main.py:26-27 | lerp(a, b, 0) is a and lerp(a, b, 1) is b |
| Interpolation.LerpBetween | main.py:26-27 | for t in [0, 1], lerp(a, b, t) lies between a and b, whichever is larger |
| Interpolation.LerpStrictlyMonotone | main.py:26-27 | increasing t moves lerp strictly towards b, for a < b and for b < a |
| Interpolation.LerpReversed | main.py:26-27 | lerp(a, b, t) equals lerp(b, a, 1 - t) |
| Interpolation.Uniform | main.py:65 | random.uniform(lo, hi) lies in [lo, hi], and strictly below hi when lo < hi |
| Angles.PyMod | main.py:35 | Python's x % m lies in [0, m) for positive m and in (m, 0] for negative m |
| Angles.Modulus | main.py:34-35 | modulus(x, m) lies in [0, m) for positive m and in (m, 0] for negative m |
| Angles.ModulusIsPyMod | main.py:35 | for m = tau the outer "+ m) % m" changes nothing: modulus equals x % tau |
| Angles.ModulusUnique | main.py:34-35 | modulus(x, tau) is the only r in [0, tau) with x - r a whole number of turns |
| Angles.ModulusShift | main.py:34-35 | adding k whole turns (k = 1: adding tau) leaves modulus(x, tau) unchanged |
| Angles.ModulusFixesRange | main.py:34-35 | an angle already in [0, tau) is returned unchanged, so wrapping is idempotent |
| Angles.ModulusNegate | main.py:34-35 | wrapping -x gives tau minus wrapping x, or 0 when that is 0 |
| Angles.AngleDiff | main.py:38-39 | angle_diff(a, b) lies in [0, tau/2] and is 0 exactly when a and b are the same point of the circle |
| Angles.AngleDiffSymmetric | main.py:38-39 | angle_diff(a, b) equals angle_diff(b, a) |
| Angles.AngleDiffSelf | main.py:38-39 | angle_diff(a, a) is 0 |
| Angles.AngleDiffShift | main.py:38-39 | adding whole turns to an angle does not change its distance to another |
| Angles.Stepped | main.py:66 | modulus(a + dir * x, tau) lies in [0, tau) and lies x ahead of a in direction dir; for x at most tau/2 its angle_diff from a is exactly x |
| Angles.Swept | main.py:142 | modulus(a + dir * speed * dt, tau) lies in [0, tau) and lies speed * dt (wrapped) ahead of a in direction dir |
| PopTheLock.Dir | main.py:56-57 | dir() is -1 or +1, and it is +1 exactly when hits is odd |
| PopTheLock.DirAlternates | main.py:56-57 | each extra hit reverses the direction |
| PopTheLock.Progress | main.py:59-60 | progress() lies in [0, 1] while hits <= 50, is 0 exactly at 0 hits and is 1 exactly at 50 hits |
| PopTheLock.ProgressIncreases | main.py:59-60 | more hits give strictly more progress |
| PopTheLock.DifficultyEnds | main.py:13-18 | the offset window is [tau/4, tau/2] at progress 0 and [tau/8, tau/3] at progress 1; the speed goes from 1.5 to 4 |
| PopTheLock.OffsetWindowBounds | main.py:63-64 | for progress in [0, 1] the window is non-empty and lies within [tau/8, tau/2] |
| PopTheLock.OffsetWindowNarrows | main.py:63-64 | as progress rises, both ends of the window fall and the window gets strictly narrower |
| PopTheLock.SpeedIncreases | main.py:141 | as progress rises the reticle speed rises strictly, within [1.5, 4] |
| PopTheLock.TargetOffset | main.py:63-65 | the drawn offset lies in the window for the current progress |
| PopTheLock.PickedTarget | main.py:62-66 | the picked target lies in [0, tau) and lies the drawn offset ahead of the reticle in the sweep direction; its angle_diff from the reticle is exactly that offset |
| PopTheLock.FreshTargetMisses | main.py:82 | a press right after a target is picked is never a hit, because the target is at least tau/8 away |
| PopTheLock.HitAndMissExamples | main.py:82 | with the reticle at 0, a target at 0.1 is a hit and a target at 1.0 is a miss |
| PopTheLock.Game.constructor | main.py:50-54 | a new game is in Start with 0 hits, a uniform angle in [0, tau) and a target picked relative to that angle; Valid holds |
| PopTheLock.Game.Init | main.py:50-54 | re-running __init__ on the object resets every field in the same way as a new game |
| PopTheLock.Game.PickTarget | main.py:62-66 | only target changes, and it becomes PickedTarget of the current angle and hits |
| PopTheLock.Game.Space | main.py:74-89 | Start, Win or Lose: a new session in Playing with 0 hits and a fresh angle and target. Playing with a hit: hits + 1, angle unchanged, direction reversed, Win exactly at 50 hits with the target kept, otherwise Playing with a new target. Playing with a miss: Lose with hits, angle and target unchanged. Valid is preserved |
| PopTheLock.Game.Update | main.py:139-142 | only angle may change. Outside Playing nothing changes. In Playing the angle becomes the Swept step at the current direction and speed. Valid is preserved |

## Left out

- Drawing: `render`, `render_count`, `render_board`, `text` and its font cache `text_dict` (main.py:91-152). They are pygame output.
- `unit_vect` (main.py:22-23) uses cos and sin, and only the drawing code calls it.
- `lerp_color` (main.py:30-31) only sets the background colour. `TargetRadius`, `ReticleRadius`, `StartColor` and `EndColor` are declared but nothing reads them.
- The debug `print` of the angle distance at main.py:81 has no effect on state.
- Window setup, event polling and the frame loop (main.py:154-185) are left out. `Game.Space` and `Game.Update` are the entry points. `dt` is any real; the frame clock that supplies it is not modelled.
- The random number generator is left out. Each `random()` value arrives as a sample parameter in `[0, 1)`.
- Floating point is left out. Angles and speeds are exact reals, so rounding effects are not modelled. Two examples: `random.uniform` returning its upper end, and `%` returning exactly `m` for a tiny negative input.
- PyMod and Modulus: Python raises ZeroDivisionError for `m == 0`, and the model excludes that case with a precondition. main.py only ever passes tau.
- ModulusIsPyMod: stated for m = tau only, the only modulus main.py uses.
- ModulusUnique: stated for m = tau only, the only modulus main.py uses.
- ModulusShift: stated for m = tau only, the only modulus main.py uses.
- ModulusFixesRange: stated for m = tau only, the only modulus main.py uses.
- ModulusNegate: stated for m = tau only, the only modulus main.py uses.
- Python's arbitrary-precision `hits` is a `nat`, since nothing ever decrements it.
