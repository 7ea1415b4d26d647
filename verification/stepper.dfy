/** One stepper axis as the bender's firmware drives it through AccelStepper:
    a logical position that `setCurrentPosition` may redefine at any time, a
    commanded speed whose sign is the direction, and a tick (`run()` or
    `runSpeed()`) that moves the motor one step that way. */
module Stepper {
  import opened Arduino

  function Sign(x: int): (r: int)
  {
    if x > 0 then 1 else if x < 0 then -1 else 0
  }

  /** The positions a motor steps through going one step at a time from `a`
      to `b`, leaving out `a` and ending with `b`. */
  function Ramp(a: int, b: int): (path: seq<int>)
    ensures |path| == Abs(b - a)
  {
    seq(Abs(b - a), k => if a < b then a + k + 1 else a - k - 1)
  }

  /** A ramp never leaves the span between its ends, moves by exactly one
      step each time, and reaches `b` only at its last entry. */
  lemma RampShape(a: int, b: int)
    ensures a != b ==> Ramp(a, b)[Abs(b - a) - 1] == b && b !in Ramp(a, b)[..Abs(b - a) - 1]
    ensures forall k :: 0 <= k < Abs(b - a) ==> (a <= Ramp(a, b)[k] <= b || b <= Ramp(a, b)[k] <= a)
    ensures forall k :: 0 <= k < Abs(b - a) ==> Abs(Ramp(a, b)[k] - a) == k + 1
  {
  }

  /** One more step in the same direction extends the ramp by that step. */
  lemma RampExtend(a: int, b: int, b': int)
    requires (a <= b && b' == b + 1) || (b <= a && b' == b - 1)
    ensures Ramp(a, b') == Ramp(a, b) + [b']
  {
    var r, r' := Ramp(a, b), Ramp(a, b');
    assert |r'| == |r| + 1;
    forall k | 0 <= k < |r'|
      ensures r'[k] == (r + [b'])[k]
    {
      if k < |r| {
        assert r'[k] == r[k];
      }
    }
  }

  /** Ticking an axis at speed `speed` from `start` ever lands on `target`:
      the target is where the axis already is, or lies ahead in the
      direction of the speed. */
  predicate Reaches(start: int, speed: int, target: int)
  {
    start == target || (speed > 0 && start < target) || (speed < 0 && start > target)
  }

  /** The position after `n` ticks at speed `speed` from `start`. */
  function After(start: int, speed: int, n: nat): (p: int)
  {
    start + n * Sign(speed)
  }

  /** `Reaches` is exactly "some number of ticks lands on the target"; so a
      `while (currentPosition() != target)` loop whose target lies behind
      the commanded direction never exits. */
  lemma {:induction false} ReachesIffSomeTickCount(start: int, speed: int, target: int)
    ensures Reaches(start, speed, target) <==> exists n: nat :: After(start, speed, n) == target
  {
    if Reaches(start, speed, target) {
      assert After(start, speed, Abs(target - start)) == target;
    } else {
      forall n: nat
        ensures After(start, speed, n) != target
      {
        if speed > 0 {
          assert After(start, speed, n) == start + n;
        } else if speed < 0 {
          assert After(start, speed, n) == start - n;
        } else {
          assert After(start, speed, n) == start;
        }
      }
    }
  }

  class Axis {
    /** AccelStepper's `currentPosition()`, in steps. */
    var position: int
    /** The speed last given to `setSpeed`, in steps per second; its sign is
        the direction of the next step. */
    var speed: int
    /** Where the motor actually stands, in steps from where it stood when
        the axis was created; `setCurrentPosition` does not move it. */
    ghost var physical: int
    /** Every physical position the motor has stepped to, oldest first. */
    ghost var path: seq<int>

    constructor ()
      ensures position == 0 && speed == 0 && physical == 0 && path == []
    {
      position, speed := 0, 0;
      physical, path := 0, [];
    }

    /** `setSpeed`. */
    method SetSpeed(s: int)
      modifies this`speed
      ensures speed == s
    {
      speed := s;
    }

    /** `run()` / `runSpeed()`: one step in the direction of the speed, none
        at speed 0. */
    method Tick()
      modifies this`position, this`physical, this`path
      ensures position == old(position) + Sign(speed)
      ensures physical == old(physical) + Sign(speed)
      ensures path == if speed == 0 then old(path) else old(path) + [physical]
    {
      position := position + Sign(speed);
      physical := physical + Sign(speed);
      if speed != 0 {
        path := path + [physical];
      }
    }

    /** `setCurrentPosition`: renames the current place without moving. */
    method SetCurrentPosition(p: int)
      modifies this`position
      ensures position == p
    {
      position := p;
    }

    /** `while (currentPosition() != target) { setSpeed(s); run(); }`.
        When the target lies behind the direction of `s` the firmware's loop
        never ends (see `ReachesIffSomeTickCount`); this method then reports
        `false` and leaves the axis as it found it. Otherwise the motor steps
        straight to the target, through every position in between and past
        none. */
    method RunUntil(target: int, s: int) returns (reached: bool)
      modifies this
      ensures reached <==> Reaches(old(position), s, target)
      ensures reached ==>
                position == target &&
                physical == old(physical) + (target - old(position)) &&
                path == old(path) + Ramp(old(physical), physical) &&
                speed == (if old(position) == target then old(speed) else s)
      ensures !reached ==> unchanged(this)
    {
      if !Reaches(position, s, target) {
        return false;
      }
      ghost var physical0, path0 := physical, path;
      var start := position;
      while position != target
        invariant start <= position <= target || target <= position <= start
        invariant start != target ==> Sign(s) == Sign(target - start)
        invariant physical - physical0 == position - start
        invariant path == path0 + Ramp(physical0, physical)
        invariant speed == (if position == start then old(speed) else s)
        decreases Abs(target - position)
      {
        SetSpeed(s);
        RampExtend(physical0, physical, physical + Sign(s));
        Tick();
      }
      return true;
    }
  }
}
