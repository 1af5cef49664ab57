/**
 * The two-finger swipe recognizer. It keeps the gesture's state, the
 * average finger offset since the gesture began (`value`), the change of
 * that offset since the previous sample (`delta`), the time of the last
 * sample and the interval since the one before (`velocity`). The property
 * observers of the Swift class (`delta` follows every write of `value`,
 * `velocity` every write of the time) are the methods AssignValue and
 * AssignTime, and every handler writes those fields only through them.
 */
module Swipe {
  import opened Touches

  /** NSGestureRecognizer.State. */
  datatype State = Possible | Began | Changed | Ended | Cancelled | Failed

  /** `min(max(x, 0.0), 1.0)`. */
  function ClampUnit(x: real): (r: real)
    ensures 0.0 <= r <= 1.0
    ensures 0.0 <= x <= 1.0 ==> r == x
    ensures x < 0.0 ==> r == 0.0
    ensures x > 1.0 ==> r == 1.0
  {
    var lower := if x > 0.0 then x else 0.0;
    if lower < 1.0 then lower else 1.0
  }

  predicate InsetInRange(s: Size) {
    0.0 <= s.width <= 1.0 && 0.0 <= s.height <= 1.0
  }

  /** Each side of the inset clamped to [0, 1] on its own. */
  function ClampInset(s: Size): (r: Size)
    ensures InsetInRange(r)
    ensures InsetInRange(s) ==> r == s
  {
    Size(ClampUnit(s.width), ClampUnit(s.height))
  }

  /** Clamping twice is clamping once. */
  lemma ClampInsetIdempotent(s: Size)
    ensures ClampInset(ClampInset(s)) == ClampInset(s)
  {
  }

  /** A sum of `total` values in [0, 1], divided by `total`, is in [0, 1]. */
  lemma MeanInUnit(sum: real, total: real)
    requires 0.0 < total && 0.0 <= sum <= total
    ensures 0.0 <= sum / total <= 1.0
  {
    assert (sum / total) * total == sum;
  }

  /** Dividing by `d` and multiplying back by `d` gives the value again. */
  lemma Rescaled(a: real, d: real)
    requires d != 0.0
    ensures (a / d) * d == a
  {
  }

  /** One coordinate of the average: multiplying back by `d` gives the mean
      `sum / total`, which is in [0, 1] when the sum is. */
  lemma Unscaled(sum: real, total: real, d: real)
    requires 0.0 < total && d != 0.0
    ensures sum / total / d * d == sum / total
    ensures 0.0 <= sum <= total ==> 0.0 <= sum / total / d * d <= 1.0
  {
    Rescaled(sum / total, d);
    if 0.0 <= sum <= total {
      MeanInUnit(sum, total);
    }
  }

  /** The average normalized position of `touches`, each coordinate divided
      by one minus the inset on that axis. The Swift code divides by the count
      and by `1 - inset`; both must be non-zero here. For touches in the unit
      square, undoing the inset scaling gives the mean position, which lies
      in the unit square. */
  function Avg(touches: seq<Touch>, inset: Size): (r: Point)
    requires |touches| > 0 && inset.width < 1.0 && inset.height < 1.0
    ensures r.x * (1.0 - inset.width) == Sum(touches).x / |touches| as real
    ensures r.y * (1.0 - inset.height) == Sum(touches).y / |touches| as real
    ensures InUnitSquare(touches) ==>
      0.0 <= r.x * (1.0 - inset.width) <= 1.0 && 0.0 <= r.y * (1.0 - inset.height) <= 1.0
  {
    var total := |touches| as real;
    var sum := Sum(touches);
    Unscaled(sum.x, total, 1.0 - inset.width);
    Unscaled(sum.y, total, 1.0 - inset.height);
    Point(sum.x / total / (1.0 - inset.width), sum.y / total / (1.0 - inset.height))
  }

  /** The average does not depend on the order in which the set of touches
      is enumerated. */
  lemma AvgOfPermutation(s: seq<Touch>, t: seq<Touch>, inset: Size)
    requires multiset(s) == multiset(t)
    requires |s| > 0 && inset.width < 1.0 && inset.height < 1.0
    ensures |t| == |s| && Avg(s, inset) == Avg(t, inset)
  {
    assert |t| == |multiset(t)| == |multiset(s)| == |s|;
    SumOfPermutation(s, t);
  }

  class TouchSwipeRecognizer {
    /** The recognizer asks for indirect touches. */
    const wantsIndirectTouches: bool
    var state: State
    var detectionInset: Size
    var value: Point
    var delta: Vector
    var time: real
    var velocity: real
    var initialTouches: seq<Touch>

    /** The class invariant: the inset has been clamped. Every method keeps
        it; only `SetDetectionInset` writes the inset. */
    ghost predicate Valid()
      reads this`detectionInset
    {
      InsetInRange(detectionInset)
    }

    /** The initial values of the stored properties. */
    constructor ()
      ensures Valid() && wantsIndirectTouches
      ensures state == Possible && detectionInset == Size(0.5, 0.5)
      ensures value == Origin && delta == ZeroVector
      ensures time == 0.0 && velocity == -1.0 && initialTouches == []
    {
      wantsIndirectTouches := true;
      state := Possible;
      detectionInset := Size(0.5, 0.5);
      value := Origin;
      delta := ZeroVector;
      time := 0.0;
      velocity := -1.0;
      initialTouches := [];
    }

    /** Assigning `detectionInset`: the observer stores the clamped value. */
    method SetDetectionInset(inset: Size)
      modifies this`detectionInset
      ensures Valid()
      ensures detectionInset == ClampInset(inset)
    {
      detectionInset := inset;
      detectionInset := ClampInset(detectionInset);
    }

    /** Assigning `value`: the observer sets `delta` to the new value minus
        the old one. */
    method AssignValue(v: Point)
      requires Valid()
      modifies this`value, this`delta
      ensures Valid()
      ensures value == v
      ensures delta == Displacement(old(value), v)
    {
      var oldValue := value;
      value := v;
      delta := Displacement(oldValue, value);
    }

    /** Assigning the sample time: the observer sets `velocity` to the new
        time minus the old one. */
    method AssignTime(t: real)
      requires Valid()
      modifies this`time, this`velocity
      ensures Valid()
      ensures time == t
      ensures velocity == t - old(time)
    {
      var oldTime := time;
      time := t;
      velocity := time - oldTime;
    }

    /** Clears the sample. `state` is left alone: AppKit itself returns the
        recognizer to `.possible`. */
    method Reset()
      requires Valid()
      modifies this`value, this`delta, this`time, this`velocity, this`initialTouches
      ensures Valid()
      ensures value == Origin && delta == ZeroVector
      ensures time == 0.0 && velocity == -1.0
      ensures initialTouches == []
    {
      AssignValue(Origin);
      delta := ZeroVector;
      AssignTime(0.0);
      velocity := -1.0;
      initialTouches := [];
    }

    /** Starts the gesture unless no finger is down. */
    method TouchesBegan(event: Event, now: real)
      requires Valid()
      modifies this`initialTouches, this`time, this`velocity, this`state
      ensures Valid()
      ensures Count(event, Touching) == 0 ==>
        initialTouches == old(initialTouches) && time == old(time) &&
        velocity == old(velocity) && state == old(state)
      ensures Count(event, Touching) != 0 ==>
        initialTouches == Matching(event, AnyPhase) && time == now &&
        velocity == now - old(time) && state == State.Began
    {
      if Count(event, Touching) == 0 {
        return;
      }
      initialTouches := Matching(event, AnyPhase);
      AssignTime(now);
      state := State.Began;
    }

    /** With exactly two touches (in any phase) the gesture changes to the
        offset of their average from the initial touches' average; with any
        other number it fails. */
    method TouchesMoved(event: Event, now: real)
      requires Valid()
      requires Count(event, AnyPhase) == 2 ==>
        |initialTouches| > 0 && detectionInset.width < 1.0 && detectionInset.height < 1.0
      modifies this`value, this`delta, this`time, this`velocity, this`state
      ensures Valid()
      ensures Count(event, AnyPhase) != 2 ==>
        state == Failed && value == old(value) && delta == old(delta) &&
        time == old(time) && velocity == old(velocity)
      ensures Count(event, AnyPhase) == 2 ==>
        value == Minus(Avg(event, detectionInset), Avg(initialTouches, detectionInset)) &&
        delta == Displacement(old(value), value) &&
        time == now && velocity == now - old(time) && state == Changed
    {
      if Count(event, AnyPhase) != 2 {
        state := Failed;
        return;
      }
      var i := Avg(initialTouches, detectionInset);
      var o := Avg(Matching(event, AnyPhase), detectionInset);
      AssignValue(Point(o.x - i.x, o.y - i.y));
      AssignTime(now);
      state := Changed;
    }

    /** Ends the gesture once no finger is down; `value` and `delta` keep
        the last sample. */
    method TouchesEnded(event: Event, now: real)
      requires Valid()
      modifies this`time, this`velocity, this`state
      ensures Valid()
      ensures Count(event, Touching) != 0 ==>
        time == old(time) && velocity == old(velocity) && state == old(state)
      ensures Count(event, Touching) == 0 ==>
        time == now && velocity == now - old(time) && state == State.Ended
    {
      if Count(event, Touching) != 0 {
        return;
      }
      AssignTime(now);
      state := State.Ended;
    }

    /** Cancels the gesture once no finger is down. */
    method TouchesCancelled(event: Event, now: real)
      requires Valid()
      modifies this`time, this`velocity, this`state
      ensures Valid()
      ensures Count(event, Touching) != 0 ==>
        time == old(time) && velocity == old(velocity) && state == old(state)
      ensures Count(event, Touching) == 0 ==>
        time == now && velocity == now - old(time) && state == State.Cancelled
    {
      if Count(event, Touching) != 0 {
        return;
      }
      AssignTime(now);
      state := State.Cancelled;
    }
  }

  /** The touches of the worked example below. */
  function ExampleBegan(): Event {
    [Touch(1, Phase.Began, Point(0.3, 0.5)), Touch(2, Phase.Began, Point(0.3, 0.6))]
  }

  function ExampleMoved(): Event {
    [Touch(1, Moved, Point(0.4, 0.5)), Touch(2, Moved, Point(0.4, 0.6))]
  }

  lemma ExampleAverages()
    ensures Avg(ExampleBegan(), Size(0.5, 0.5)) == Point(0.6, 1.1)
    ensures Avg(ExampleMoved(), Size(0.5, 0.5)) == Point(0.8, 1.1)
  {
    var b, m := ExampleBegan(), ExampleMoved();
    assert b[..1][..0] == [] && b[..1] == [b[0]];
    assert Sum(b[..1]) == Point(0.3, 0.5);
    assert Sum(b) == Point(0.6, 1.1);
    assert m[..1][..0] == [] && m[..1] == [m[0]];
    assert Sum(m[..1]) == Point(0.4, 0.5);
    assert Sum(m) == Point(0.8, 1.1);
  }

  /** The example's first sample has a finger down, and its offset is
      (0.2, 0.0). */
  lemma ExampleOffset()
    ensures Count(ExampleBegan(), Touching) > 0
    ensures Minus(Avg(ExampleMoved(), Size(0.5, 0.5)), Avg(ExampleBegan(), Size(0.5, 0.5)))
      == Point(0.2, 0.0)
  {
    var b := ExampleBegan();
    assert b[0] in Matching(b, Touching);
    ExampleAverages();
  }

  /** With the default inset (0.5, 0.5), two fingers begin at (0.3, 0.5)
      and (0.3, 0.6) and move to (0.4, 0.5) and (0.4, 0.6): the averages
      are (0.6, 1.1) and (0.8, 1.1), so the value is (0.2, 0.0). */
  method WorkedExample(t0: real, t1: real) returns (value: Point, delta: Vector, state: State)
    ensures value == Point(0.2, 0.0) && delta == Vector(0.2, 0.0) && state == Changed
  {
    var r := new TouchSwipeRecognizer();
    var began, moved := ExampleBegan(), ExampleMoved();
    ExampleOffset();
    r.TouchesBegan(began, t0);
    assert r.initialTouches == began && r.value == Origin;
    assert r.detectionInset == Size(0.5, 0.5);
    r.TouchesMoved(moved, t1);
    value, delta, state := r.value, r.delta, r.state;
  }

  /** Feeds a run of two-touch samples to `r`, the sample `moves[k]` at
      time `clock[k]`: the gesture is `.changed`, at the time of the last
      sample, with the value of the last sample. */
  method MoveAll(r: TouchSwipeRecognizer, moves: seq<Event>, clock: seq<real>)
    requires r.Valid() && |r.initialTouches| > 0
    requires r.detectionInset.width < 1.0 && r.detectionInset.height < 1.0
    requires |moves| > 0 && forall k :: 0 <= k < |moves| ==> |moves[k]| == 2
    requires |clock| == |moves|
    modifies r`value, r`delta, r`time, r`velocity, r`state
    ensures r.Valid() && r.state == Changed && r.time == clock[|moves| - 1]
    ensures r.value ==
      Minus(Avg(moves[|moves| - 1], r.detectionInset), Avg(r.initialTouches, r.detectionInset))
  {
    r.TouchesMoved(moves[0], clock[0]);
    var k := 1;
    while k < |moves|
      invariant 1 <= k <= |moves|
      invariant r.Valid() && r.state == Changed && r.time == clock[k - 1]
      invariant r.value ==
        Minus(Avg(moves[k - 1], r.detectionInset), Avg(r.initialTouches, r.detectionInset))
    {
      r.TouchesMoved(moves[k], clock[k]);
      k := k + 1;
    }
  }

  /** A two-finger swipe: a sample with a finger down begins the gesture,
      every sample of two touches (in any phase) moves it, and a sample with
      no finger down ends it. It ends in `.ended`, with the value of the
      last move: the average of its touches minus the average of the
      initial touches. `clock` gives the time of each sample. */
  method TwoFingerSwipe(began: Event, moves: seq<Event>, ended: Event, clock: seq<real>)
    returns (state: State, value: Point, velocity: real)
    requires Count(began, Touching) > 0
    requires |moves| > 0 && forall k :: 0 <= k < |moves| ==> |moves[k]| == 2
    requires Count(ended, Touching) == 0
    requires |clock| == |moves| + 2
    ensures state == State.Ended
    ensures value == Minus(Avg(moves[|moves| - 1], Size(0.5, 0.5)), Avg(began, Size(0.5, 0.5)))
    ensures velocity == clock[|moves| + 1] - clock[|moves|]
  {
    var r := new TouchSwipeRecognizer();
    r.TouchesBegan(began, clock[0]);
    MoveAll(r, moves, clock[1..|moves| + 1]);
    r.TouchesEnded(ended, clock[|moves| + 1]);
    state, value, velocity := r.state, r.value, r.velocity;
  }

  /** `.failed` is not terminal: after a one-finger move has failed the
      gesture, a two-finger move changes it again. */
  method MoveAfterFailure(began: Event, lifted: Event, moved: Event, t0: real, t1: real, t2: real)
    returns (afterLift: State, afterMove: State)
    requires Count(began, Touching) > 0
    requires Count(lifted, AnyPhase) != 2 && Count(moved, AnyPhase) == 2
    ensures afterLift == Failed && afterMove == Changed
  {
    var r := new TouchSwipeRecognizer();
    r.TouchesBegan(began, t0);
    r.TouchesMoved(lifted, t1);
    afterLift := r.state;
    r.TouchesMoved(moved, t2);
    afterMove := r.state;
  }

  /** After `reset()` the time is 0, so the next gesture's first sample at
      `t0` gives `velocity == t0`, not the -1 that marks "no sample". */
  method VelocityAfterReset(first: Event, last: Event, again: Event, t0: real, t1: real, t2: real)
    returns (afterReset: real, afterBegan: real)
    requires Count(first, Touching) > 0 && Count(last, Touching) == 0
    requires Count(again, Touching) > 0
    ensures afterReset == -1.0 && afterBegan == t2
  {
    var r := new TouchSwipeRecognizer();
    r.TouchesBegan(first, t0);
    r.TouchesEnded(last, t1);
    r.Reset();
    afterReset := r.velocity;
    r.TouchesBegan(again, t2);
    afterBegan := r.velocity;
  }

  /** One call on a recognizer: one of the four touch handlers with its
      event, or `reset()`. */
  datatype Step = Begin(event: Event) | Move(event: Event) | End(event: Event)
    | Cancel(event: Event) | Clear

  /** The handler of `step` passes its guard and samples the clock. */
  predicate Samples(step: Step) {
    match step
    case Begin(e) => Count(e, Touching) != 0
    case Move(e) => Count(e, AnyPhase) == 2
    case End(e) => Count(e, Touching) == 0
    case Cancel(e) => Count(e, Touching) == 0
    case Clear => false
  }

  /** No handler has sampled the clock since construction or the last
      `reset()`. */
  predicate Unsampled(steps: seq<Step>) {
    if steps == [] then true
    else
      var last := steps[|steps| - 1];
      last.Clear? || (!Samples(last) && Unsampled(steps[..|steps| - 1]))
  }

  /** A `touchesBegan` with a finger down has stored the initial touches
      since construction or the last `reset()`. */
  predicate Primed(steps: seq<Step>) {
    if steps == [] then false
    else
      var last := steps[|steps| - 1];
      !last.Clear? &&
      ((last.Begin? && Count(last.event, Touching) != 0) || Primed(steps[..|steps| - 1]))
  }

  /** Makes the call `step` on `r` at time `now`. */
  method Apply(r: TouchSwipeRecognizer, step: Step, now: real)
    requires r.Valid()
    requires step.Move? && Count(step.event, AnyPhase) == 2 ==>
      |r.initialTouches| > 0 && r.detectionInset.width < 1.0 && r.detectionInset.height < 1.0
    modifies r`value, r`delta, r`time, r`velocity, r`state, r`initialTouches
    ensures r.Valid()
    ensures step.Clear? ==> r.time == 0.0 && r.velocity == -1.0 && r.initialTouches == []
    ensures Samples(step) ==> r.time == now && r.velocity == now - old(r.time)
    ensures !step.Clear? && !Samples(step) ==>
      r.time == old(r.time) && r.velocity == old(r.velocity)
    ensures step.Begin? && Samples(step) ==> |r.initialTouches| > 0
    ensures !step.Clear? && !(step.Begin? && Samples(step)) ==>
      r.initialTouches == old(r.initialTouches)
  {
    match step
    case Begin(e) => r.TouchesBegan(e, now);
    case Move(e) => r.TouchesMoved(e, now);
    case End(e) => r.TouchesEnded(e, now);
    case Cancel(e) => r.TouchesCancelled(e, now);
    case Clear => r.Reset();
  }

  /** The calls `steps` on a fresh recognizer, the handler call `steps[k]`
      at time `clock[k]` of a non-negative clock that never runs backwards,
      as `CACurrentMediaTime()` does: `velocities[k]`, the velocity after
      call k, is -1 ("no event received") exactly until the first sampling
      call after construction or `reset()`, and non-negative after it. */
  method SampleRun(steps: seq<Step>, clock: seq<real>) returns (velocities: seq<real>)
    requires |clock| == |steps|
    requires forall k :: 0 <= k < |clock| ==> 0.0 <= clock[k]
    requires forall k :: 0 < k < |clock| ==> clock[k - 1] <= clock[k]
    requires forall k :: 0 <= k < |steps| ==>
      (steps[k].Move? && Count(steps[k].event, AnyPhase) == 2 ==> Primed(steps[..k]))
    ensures |velocities| == |steps|
    ensures forall k :: 0 <= k < |steps| ==>
      (Unsampled(steps[..k + 1]) ==> velocities[k] == -1.0) &&
      (!Unsampled(steps[..k + 1]) ==> velocities[k] >= 0.0)
  {
    var r := new TouchSwipeRecognizer();
    velocities := [];
    var k := 0;
    while k < |steps|
      invariant 0 <= k <= |steps| && |velocities| == k
      invariant r.Valid() && r.detectionInset == Size(0.5, 0.5)
      invariant Primed(steps[..k]) ==> |r.initialTouches| > 0
      invariant Unsampled(steps[..k]) ==> r.velocity == -1.0 && r.time == 0.0
      invariant !Unsampled(steps[..k]) ==> r.velocity >= 0.0 && k > 0 && r.time <= clock[k - 1]
      invariant forall i :: 0 <= i < k ==>
        (Unsampled(steps[..i + 1]) ==> velocities[i] == -1.0) &&
        (!Unsampled(steps[..i + 1]) ==> velocities[i] >= 0.0)
    {
      assert steps[..k + 1][..k] == steps[..k];
      Apply(r, steps[k], clock[k]);
      velocities := velocities + [r.velocity];
      k := k + 1;
    }
  }
}
