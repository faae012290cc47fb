/**
 * The attack-swing animator: a click arms it with a start time when it is
 * idle; each frame computes the progress `(now - start) / duration` and a
 * piecewise-linear angle that winds up to half the target angle at
 * progress 0.5 and mirrors back to 0 at progress 1; once the progress
 * exceeds 1 the animator is idle again with angle 0.
 *
 * Times are whole milliseconds (what `Date.now()` returns), passed in as
 * `now`. Angles and progress are reals.
 */
module Swing {
  import opened Wrappers

  /** The length of a swing, in milliseconds. */
  const ActionDuration: int := 200

  /** The angle of the swing's turning point is half of this, in degrees. */
  const ActionTargetAngle: real := -90.0

  /** The animator's state: the start time of the swing in flight (if any) and the current angle. */
  datatype Action = Action(start: Option<int>, angle: real)

  /** The state before the first click. */
  const Idle: Action := Action(None, 0.0)

  /**
   * The frame's test of the start time is a JavaScript truthiness test: a
   * start time of 0 counts as no swing, as the missing one does.
   */
  predicate Truthy(start: Option<int>) {
    start.Some? && start.value != 0
  }

  /** A click arms the animator at `now` when no swing is in flight and is ignored otherwise. */
  function Click(a: Action, now: int): (r: Action)
    ensures r.angle == a.angle
    ensures a.start.None? ==> r.start == Some(now)
    ensures a.start.Some? ==> r == a
  {
    if a.start == None then Action(Some(now), a.angle) else a
  }

  /** How far the swing is along, as a fraction of its duration. */
  function Progress(start: int, now: int, duration: int): real
    requires duration > 0
  {
    (now - start) as real / duration as real
  }

  /** The swing angle at `progress`, for the target angle `target`. */
  function SwingAngle(target: real, progress: real): (angle: real)
    ensures progress > 0.5 ==> angle == target * (1.0 - progress)
  {
    if progress > 0.5 then
      var half := target / 2.0;
      half - (target * progress - half)
    else
      target * progress
  }

  /** One frame of the animator at time `now`. */
  function Tick(a: Action, now: int, duration: int, target: real): (r: Action)
    requires duration > 0
    ensures !Truthy(a.start) ==> r == a
    ensures Truthy(a.start) && Progress(a.start.value, now, duration) > 1.0 ==> r == Idle
    ensures Truthy(a.start) && Progress(a.start.value, now, duration) <= 1.0 ==>
      r.start == a.start && r.angle == SwingAngle(target, Progress(a.start.value, now, duration))
  {
    if Truthy(a.start) then
      var progress := Progress(a.start.value, now, duration);
      if progress > 1.0 then Idle
      else Action(a.start, SwingAngle(target, progress))
    else
      a
  }

  /** The swing starts and ends at angle 0 and turns at half the target angle. */
  lemma SwingEndpoints(target: real)
    ensures SwingAngle(target, 0.0) == 0.0
    ensures SwingAngle(target, 0.5) == target / 2.0
    ensures SwingAngle(target, 1.0) == 0.0
  {
  }

  /**
   * Both linear pieces pass through the turning point at progress 0.5: the
   * angle differs from the angle at 0.5 by the target times the distance
   * from 0.5, growing before it and shrinking after it, so the return starts
   * where the wind-up ends.
   */
  lemma SwingLinearAroundHalf(target: real, p: real)
    ensures p <= 0.5 ==> SwingAngle(target, p) - SwingAngle(target, 0.5) == target * (p - 0.5)
    ensures p > 0.5 ==> SwingAngle(target, p) - SwingAngle(target, 0.5) == target * (0.5 - p)
  {
  }

  /** The return mirrors the wind-up: the angle at `progress` is the angle at `1 - progress`. */
  lemma SwingMirrored(target: real, progress: real)
    ensures SwingAngle(target, progress) == SwingAngle(target, 1.0 - progress)
  {
  }

  /** During a swing the angle lies between 0 and half the target angle. */
  lemma SwingBounded(target: real, progress: real)
    requires 0.0 <= progress <= 1.0
    ensures target <= 0.0 ==> target / 2.0 <= SwingAngle(target, progress) <= 0.0
    ensures target >= 0.0 ==> 0.0 <= SwingAngle(target, progress) <= target / 2.0
  {
    var q := if progress > 0.5 then 1.0 - progress else progress;
    assert 0.0 <= q <= 0.5;
    assert SwingAngle(target, progress) == target * q;
    if target <= 0.0 {
      assert target * q <= 0.0 by { assert (-target) * q >= 0.0; }
      assert target * q >= target * 0.5 by { assert (-target) * (0.5 - q) >= 0.0; }
    } else {
      assert target * (0.5 - q) >= 0.0;
    }
  }

  /** The wind-up grows in magnitude with the progress. */
  lemma WindUpMonotone(target: real, p: real, q: real)
    requires 0.0 <= p <= q <= 0.5
    ensures target <= 0.0 ==> SwingAngle(target, q) <= SwingAngle(target, p)
    ensures target >= 0.0 ==> SwingAngle(target, p) <= SwingAngle(target, q)
  {
    assert SwingAngle(target, q) - SwingAngle(target, p) == target * (q - p);
    if target <= 0.0 {
      assert target * (q - p) <= 0.0;
    } else {
      assert target * (q - p) >= 0.0;
    }
  }

  /** At progress exactly 1 the angle is back to 0 but the swing is still in flight: the reset test is strict. */
  lemma ArmedAtFullProgress(a: Action, now: int, duration: int, target: real)
    requires duration > 0 && Truthy(a.start)
    requires now == a.start.value + duration
    ensures Tick(a, now, duration, target) == Action(a.start, 0.0)
  {
  }

  /** An input reaching the animator: a click or a frame, each at a time. */
  datatype Input = ClickAt(now: int) | FrameAt(now: int)

  /** The animator after one input, with the component's duration and target angle. */
  function Step(a: Action, input: Input): Action {
    match input
    case ClickAt(now) => Click(a, now)
    case FrameAt(now) => Tick(a, now, ActionDuration, ActionTargetAngle)
  }

  /** The animator after the inputs `ins`, oldest first. */
  function Run(a: Action, ins: seq<Input>): Action
    decreases |ins|
  {
    if ins == [] then a else Run(Step(a, ins[0]), ins[1..])
  }

  /** The angles drawn: the angle after each frame in `ins`. */
  function FrameAngles(a: Action, ins: seq<Input>): seq<real>
    decreases |ins|
  {
    if ins == [] then []
    else
      var next := Step(a, ins[0]);
      (if ins[0].FrameAt? then [next.angle] else []) + FrameAngles(next, ins[1..])
  }

  /** The inputs with every click that arrives while a swing is in flight removed. */
  function WithoutArmedClicks(a: Action, ins: seq<Input>): seq<Input>
    decreases |ins|
  {
    if ins == [] then []
    else if ins[0].ClickAt? && a.start.Some? then WithoutArmedClicks(a, ins[1..])
    else [ins[0]] + WithoutArmedClicks(Step(a, ins[0]), ins[1..])
  }

  /** Clicks during a swing change neither the final state nor any angle drawn. */
  lemma {:induction false} ArmedClicksIgnored(a: Action, ins: seq<Input>)
    ensures Run(a, WithoutArmedClicks(a, ins)) == Run(a, ins)
    ensures FrameAngles(a, WithoutArmedClicks(a, ins)) == FrameAngles(a, ins)
    decreases |ins|
  {
    if ins != [] {
      var rest := ins[1..];
      if ins[0].ClickAt? && a.start.Some? {
        assert Step(a, ins[0]) == a;
        ArmedClicksIgnored(a, rest);
      } else {
        var next := Step(a, ins[0]);
        ArmedClicksIgnored(next, rest);
        var w := [ins[0]] + WithoutArmedClicks(next, rest);
        assert w[0] == ins[0] && w[1..] == WithoutArmedClicks(next, rest);
      }
    }
  }

  /** True when every frame in `ins` comes no later than `start + duration`. */
  predicate FramesWithin(start: int, ins: seq<Input>) {
    forall i :: 0 <= i < |ins| && ins[i].FrameAt? ==> ins[i].now <= start + ActionDuration
  }

  /** At most one swing is in flight: until its time is up, no input replaces its start time. */
  lemma {:induction false} OneSwingInFlight(a: Action, ins: seq<Input>)
    requires a.start.Some? && FramesWithin(a.start.value, ins)
    ensures Run(a, ins).start == a.start
    decreases |ins|
  {
    if ins != [] {
      var next := Step(a, ins[0]);
      assert ins[0].FrameAt? ==> ins[0].now <= a.start.value + ActionDuration;
      assert next.start == a.start;
      assert FramesWithin(a.start.value, ins[1..]) by {
        forall i | 0 <= i < |ins[1..]| && ins[1..][i].FrameAt?
          ensures ins[1..][i].now <= a.start.value + ActionDuration
        {
          assert ins[1..][i] == ins[i + 1];
        }
      }
      OneSwingInFlight(next, ins[1..]);
    }
  }

  /** True when `ins` holds no click. */
  predicate FramesOnly(ins: seq<Input>) {
    forall i :: 0 <= i < |ins| ==> ins[i].FrameAt?
  }

  /** Without a click, an animator that holds no swing stays as it is, frame after frame. */
  lemma {:induction false} IdleStaysIdle(a: Action, ins: seq<Input>)
    requires !Truthy(a.start) && FramesOnly(ins)
    ensures Run(a, ins) == a
    ensures forall i :: 0 <= i < |FrameAngles(a, ins)| ==> FrameAngles(a, ins)[i] == a.angle
  {
    if ins != [] {
      assert ins[0].FrameAt?;
      assert Step(a, ins[0]) == a;
      assert FramesOnly(ins[1..]) by {
        forall i | 0 <= i < |ins[1..]| ensures ins[1..][i].FrameAt? {
          assert ins[1..][i] == ins[i + 1];
        }
      }
      IdleStaysIdle(a, ins[1..]);
    }
  }

  /**
   * A click at time 0 arms the animator for clicks but not for frames: no
   * frame ever ends that swing and every later click is ignored.
   */
  lemma {:induction false} ClickAtZeroNeverEnds(ins: seq<Input>)
    ensures Run(Idle, [ClickAt(0)] + ins) == Action(Some(0), 0.0)
  {
    var armed := Action(Some(0), 0.0);
    assert Step(Idle, ClickAt(0)) == armed;
    assert ([ClickAt(0)] + ins)[1..] == ins;
    StuckStaysStuck(ins);
  }

  /** Helper for ClickAtZeroNeverEnds: no input moves the animator out of a swing started at 0. */
  lemma {:induction false} StuckStaysStuck(ins: seq<Input>)
    ensures Run(Action(Some(0), 0.0), ins) == Action(Some(0), 0.0)
  {
    if ins != [] {
      assert Step(Action(Some(0), 0.0), ins[0]) == Action(Some(0), 0.0);
      StuckStaysStuck(ins[1..]);
    }
  }

  /** A swing with duration 200 ms and target -90 degrees: -45 at 100 ms, 0 and still armed at 200 ms, idle after. */
  lemma SwingTimeline(start: int)
    requires start != 0
    ensures Tick(Action(Some(start), 0.0), start + 100, ActionDuration, ActionTargetAngle) == Action(Some(start), -45.0)
    ensures Tick(Action(Some(start), -45.0), start + 200, ActionDuration, ActionTargetAngle) == Action(Some(start), 0.0)
    ensures Tick(Action(Some(start), 0.0), start + 201, ActionDuration, ActionTargetAngle) == Idle
  {
  }
}
