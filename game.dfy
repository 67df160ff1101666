/** The Game state machine of main.py (lines 42-89 and 139-142): the game
    states, the difficulty curve derived from the hit count, and the Game
    object whose action-key and per-frame methods update it in place. */
module PopTheLock {
  import opened Constants
  import opened Interpolation
  import opened Angles

  /** State (main.py:42-46). */
  datatype State = Start | Playing | Win | Lose

  /** Game.dir: the sweep direction, -1 for an even hit count and +1 for an odd one. */
  function Dir(hits: nat): (d: int)
    ensures d == -1 || d == 1
    ensures d == 1 <==> hits % 2 == 1
  {
    hits % 2 * 2 - 1
  }

  /** Every hit reverses the sweep. */
  lemma DirAlternates(hits: nat)
    ensures Dir(hits + 1) == -Dir(hits)
  {
  }

  /** Game.progress: the fraction of the hits needed to win. */
  function Progress(hits: nat): (p: real)
    ensures hits <= MaxHitCount ==> 0.0 <= p <= 1.0
    ensures p == 0.0 <==> hits == 0
    ensures p == 1.0 <==> hits == MaxHitCount
  {
    hits as real / MaxHitCount as real
  }

  /** More hits, more progress. */
  lemma ProgressIncreases(h1: nat, h2: nat)
    requires h1 < h2
    ensures Progress(h1) < Progress(h2)
  {
  }

  /** Lower end of the target offset window at progress p (main.py:63). */
  function MinOffset(p: real): real {
    Lerp(MaxMinOffset, MinMinOffset, p)
  }

  /** Upper end of the target offset window at progress p (main.py:64). */
  function MaxOffset(p: real): real {
    Lerp(MaxMaxOffset, MinMaxOffset, p)
  }

  /** Reticle speed in radians per second at progress p (main.py:141). */
  function Speed(p: real): real {
    Lerp(MinSpeed, MaxSpeed, p)
  }

  /** The window is [Tau/4, Tau/2] at the start and [Tau/8, Tau/3] at the end;
      the speed goes from 1.5 to 4. */
  lemma DifficultyEnds()
    ensures MinOffset(0.0) == Tau / 4.0 && MaxOffset(0.0) == Tau / 2.0
    ensures MinOffset(1.0) == Tau / 8.0 && MaxOffset(1.0) == Tau / 3.0
    ensures Speed(0.0) == 1.5 && Speed(1.0) == 4.0
  {
    LerpEnds(MaxMinOffset, MinMinOffset);
    LerpEnds(MaxMaxOffset, MinMaxOffset);
    LerpEnds(MinSpeed, MaxSpeed);
  }

  /** Throughout the game the window is non-empty and lies within
      [Tau/8, Tau/2]: the target is never on the reticle nor more than half a
      turn away from it. */
  lemma OffsetWindowBounds(p: real)
    requires 0.0 <= p <= 1.0
    ensures Tau / 8.0 <= MinOffset(p) < MaxOffset(p) <= Tau / 2.0
  {
    LerpBetween(MaxMinOffset, MinMinOffset, p);
    LerpBetween(MaxMaxOffset, MinMaxOffset, p);
    assert MaxOffset(p) - MinOffset(p) == Tau / 4.0 - p * (Tau / 24.0);
  }

  /** As progress rises, both ends of the window move down and the window
      gets strictly narrower. */
  lemma OffsetWindowNarrows(p: real, q: real)
    requires 0.0 <= p < q <= 1.0
    ensures MinOffset(q) < MinOffset(p)
    ensures MaxOffset(q) < MaxOffset(p)
    ensures MaxOffset(q) - MinOffset(q) < MaxOffset(p) - MinOffset(p)
  {
    LerpStrictlyMonotone(MaxMinOffset, MinMinOffset, p, q);
    LerpStrictlyMonotone(MaxMaxOffset, MinMaxOffset, p, q);
    assert MaxOffset(p) - MinOffset(p) == Tau / 4.0 - p * (Tau / 24.0);
    assert MaxOffset(q) - MinOffset(q) == Tau / 4.0 - q * (Tau / 24.0);
  }

  /** As progress rises the reticle gets strictly faster, within [1.5, 4]. */
  lemma SpeedIncreases(p: real, q: real)
    requires 0.0 <= p < q <= 1.0
    ensures MinSpeed <= Speed(p) < Speed(q) <= MaxSpeed
  {
    LerpStrictlyMonotone(MinSpeed, MaxSpeed, p, q);
    LerpBetween(MinSpeed, MaxSpeed, p);
    LerpBetween(MinSpeed, MaxSpeed, q);
  }

  /** The offset pick_target draws with random.uniform from the window at the
      current progress (main.py:63-65). */
  function TargetOffset(hits: nat, sample: real): (o: real)
    requires hits <= MaxHitCount && IsSample(sample)
    ensures MinOffset(Progress(hits)) <= o < MaxOffset(Progress(hits))
  {
    OffsetWindowBounds(Progress(hits));
    Uniform(MinOffset(Progress(hits)), MaxOffset(Progress(hits)), sample)
  }

  /** The target pick_target sets: the drawn offset away from the reticle, in
      the sweep direction, wrapped into [0, Tau) (main.py:66). */
  function PickedTarget(angle: real, hits: nat, sample: real): (t: real)
    requires hits <= MaxHitCount && IsSample(sample)
    ensures 0.0 <= t < Tau
    ensures Modulus(Dir(hits) as real * (t - angle), Tau) == TargetOffset(hits, sample)
    ensures AngleDiff(angle, t) == TargetOffset(hits, sample)
  {
    var offset := TargetOffset(hits, sample);
    OffsetWindowBounds(Progress(hits));
    ModulusFixesRange(offset);
    Stepped(angle, Dir(hits), offset)
  }

  /** A press of the action key hits when the reticle is closer to the target
      than the threshold (main.py:82). */
  predicate IsHit(angle: real, target: real) {
    AngleDiff(angle, target) < HitThreshold
  }

  /** A freshly picked target is at least Tau/8 away from the reticle, well
      beyond the hit threshold, so pressing at once always misses. */
  lemma FreshTargetMisses(angle: real, hits: nat, sample: real)
    requires hits <= MaxHitCount && IsSample(sample)
    ensures !IsHit(angle, PickedTarget(angle, hits, sample))
  {
    OffsetWindowBounds(Progress(hits));
  }

  /** The two scenarios of a press while playing with the reticle at 0: a target
      at 0.1 is hit, a target at 1.0 is missed. */
  lemma HitAndMissExamples()
    ensures IsHit(0.0, 0.1)
    ensures !IsHit(0.0, 1.0)
  {
    ModulusFixesRange(0.1);
    ModulusFixesRange(1.0);
    ModulusNegate(0.1);
    ModulusNegate(1.0);
  }

  /** Game (main.py:49-89, 139-142). */
  class Game {
    var state: State
    var angle: real
    var hits: nat
    var target: real

    /** Angles stay on the circle, the hit count stays within the win
        threshold, a game in progress has not yet won, and Win is exactly
        the state with all hits made. */
    ghost predicate Valid()
      reads this
    {
      && 0.0 <= angle < Tau
      && 0.0 <= target < Tau
      && hits <= MaxHitCount
      && (state == Start ==> hits == 0)
      && (state == Playing ==> hits < MaxHitCount)
      && (state == Win <==> hits == MaxHitCount)
    }

    /** Game() (main.py:50-54); the two samples stand for the random() values
        behind the initial angle and the first offset. */
    constructor (angleSample: real, offsetSample: real)
      requires IsSample(angleSample) && IsSample(offsetSample)
      ensures Valid()
      ensures state == Start && hits == 0
      ensures angle == Uniform(0.0, Tau, angleSample)
      ensures target == PickedTarget(angle, 0, offsetSample)
    {
      new;
      Init(angleSample, offsetSample);
    }

    /** Game.__init__ run on this object, as space() does to start a new
        session (main.py:50-54, 78). */
    method Init(angleSample: real, offsetSample: real)
      requires IsSample(angleSample) && IsSample(offsetSample)
      modifies this
      ensures Valid()
      ensures state == Start && hits == 0
      ensures angle == Uniform(0.0, Tau, angleSample)
      ensures target == PickedTarget(angle, 0, offsetSample)
    {
      state := Start;
      angle := Uniform(0.0, Tau, angleSample);
      hits := 0;
      PickTarget(offsetSample);
    }

    /** Game.pick_target (main.py:62-66): only the target changes. */
    method PickTarget(offsetSample: real)
      requires hits <= MaxHitCount && IsSample(offsetSample)
      modifies this`target
      ensures target == PickedTarget(angle, hits, offsetSample)
    {
      var minOffset := MinOffset(Progress(hits));
      var maxOffset := MaxOffset(Progress(hits));
      var offset := Uniform(minOffset, maxOffset, offsetSample);
      target := Stepped(angle, Dir(hits), offset);
    }

    /** Game.space, the action key (main.py:74-89). From Start, Win or Lose a
        new session starts playing; while playing, a hit counts and either wins
        or picks the next target, and a miss loses. */
    method Space(angleSample: real, offsetSample: real)
      requires Valid() && IsSample(angleSample) && IsSample(offsetSample)
      modifies this
      ensures Valid()
      ensures old(state) != Playing ==>
        && state == Playing && hits == 0
        && angle == Uniform(0.0, Tau, angleSample)
        && target == PickedTarget(angle, 0, offsetSample)
      ensures old(state) == Playing && old(IsHit(angle, target)) ==>
        && hits == old(hits) + 1
        && angle == old(angle)
        && Dir(hits) == -Dir(old(hits))
        && (state == Win <==> hits == MaxHitCount)
        && (state == Win ==> target == old(target))
        && (state != Win ==> state == Playing && target == PickedTarget(angle, hits, offsetSample))
      ensures old(state) == Playing && !old(IsHit(angle, target)) ==>
        && state == Lose
        && hits == old(hits) && angle == old(angle) && target == old(target)
    {
      match state
      case Start | Win | Lose =>
        Init(angleSample, offsetSample);
        state := Playing;
      case Playing =>
        if AngleDiff(angle, target) < HitThreshold {
          hits := hits + 1;
          DirAlternates(hits - 1);
          if hits == MaxHitCount {
            state := Win;
          } else {
            PickTarget(offsetSample);
          }
        } else {
          state := Lose;
        }
    }

    /** Game.update (main.py:139-142): while playing, the reticle moves by
        speed * dt in the sweep direction; in any other state nothing changes. */
    method Update(dt: real)
      requires Valid()
      modifies this`angle
      ensures Valid()
      ensures state != Playing ==> angle == old(angle)
      ensures state == Playing ==> angle == Swept(old(angle), Dir(hits), Speed(Progress(hits)), dt)
    {
      if state == Playing {
        angle := Swept(angle, Dir(hits), Speed(Progress(hits)), dt);
      }
    }
  }
}
