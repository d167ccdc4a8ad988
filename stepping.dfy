/**
 * The step controller as a pure state machine over the current picture
 * index and the "a tween is running" flag.  A wheel event is refused while
 * a tween runs, refused at the first or last picture in that direction,
 * and otherwise moves the index by one and starts a tween at once; only the
 * tween's completion clears the flag.
 */
module Stepping {

  /** The controller's two variables: `currentIndex` and `isTweening`. */
  datatype Phase = Phase(index: int, tweening: bool)

  /** The input events the controller reacts to. */
  datatype Event = WheelEvent(deltaY: real) | TweenComplete

  /**
   * The controller's invariant for an `n`-picture stack: the index names a
   * picture (or is the initial 0 of an empty stack), and a tween can only
   * be running when there are at least two pictures.
   */
  predicate InRange(p: Phase, n: nat) {
    0 <= p.index && (p.index < n || p.index == 0) && (p.tweening ==> n >= 2 && p.index < n)
  }

  /** The wheel event accepted in phase `p` starts a step down or up. */
  predicate StepsDown(p: Phase, deltaY: real, n: nat) {
    !p.tweening && deltaY > 0.0 && p.index < n - 1
  }

  predicate StepsUp(p: Phase, deltaY: real) {
    !p.tweening && deltaY < 0.0 && p.index > 0
  }

  /** The wheel handler: the re-entrancy guard, then the two boundary checks. */
  function WheelStep(p: Phase, deltaY: real, n: nat): (r: Phase)
    ensures p.tweening ==> r == p
    ensures r != p ==> !p.tweening && r.tweening && (r.index == p.index + 1 || r.index == p.index - 1)
    ensures r.index == p.index + 1 ==> deltaY > 0.0 && r.index <= n - 1
    ensures r.index == p.index - 1 ==> deltaY < 0.0 && r.index >= 0
  {
    if p.tweening then p
    else if deltaY > 0.0 then
      if p.index < n - 1 then Phase(p.index + 1, true) else p
    else if deltaY < 0.0 then
      if p.index > 0 then Phase(p.index - 1, true) else p
    else p
  }

  /** The tween's completion callback. */
  function CompleteStep(p: Phase): (r: Phase)
    ensures !r.tweening && r.index == p.index
  {
    p.(tweening := false)
  }

  function Step(p: Phase, e: Event, n: nat): Phase {
    match e
    case WheelEvent(d) => WheelStep(p, d, n)
    case TweenComplete => CompleteStep(p)
  }

  /** The phase after a whole sequence of events, in arrival order. */
  function Run(p: Phase, events: seq<Event>, n: nat): Phase
    decreases |events|
  {
    if events == [] then p else Run(Step(p, events[0], n), events[1..], n)
  }

  /**
   * A wheel event changes the phase exactly when it is accepted; an
   * accepted one moves the index by one in the wheel's direction and marks
   * a tween as running.
   */
  lemma WheelStepCases(p: Phase, deltaY: real, n: nat)
    ensures WheelStep(p, deltaY, n) != p <==> StepsDown(p, deltaY, n) || StepsUp(p, deltaY)
    ensures StepsDown(p, deltaY, n) ==> WheelStep(p, deltaY, n) == Phase(p.index + 1, true)
    ensures StepsUp(p, deltaY) ==> WheelStep(p, deltaY, n) == Phase(p.index - 1, true)
  {
  }

  /** A running tween is never joined by another one. */
  lemma WheelIgnoredWhileTweening(p: Phase, deltaY: real, n: nat)
    requires p.tweening
    ensures WheelStep(p, deltaY, n) == p
  {
  }

  /** Each event keeps the invariant. */
  lemma StepInRange(p: Phase, e: Event, n: nat)
    requires InRange(p, n)
    ensures InRange(Step(p, e, n), n)
  {
  }

  /** Any sequence of events keeps the invariant. */
  lemma {:induction false} RunInRange(p: Phase, events: seq<Event>, n: nat)
    requires InRange(p, n)
    ensures InRange(Run(p, events, n), n)
    decreases |events|
  {
    if events != [] {
      StepInRange(p, events[0], n);
      RunInRange(Step(p, events[0], n), events[1..], n);
    }
  }

  /**
   * With a single picture no tween ever starts, so the division by
   * `vh * (n - 1)` of a tween frame is never reached.
   */
  lemma {:induction false} SinglePictureNeverTweens(p: Phase, events: seq<Event>, n: nat)
    requires n <= 1 && InRange(p, n)
    ensures !Run(p, events, n).tweening
    ensures Run(p, events, n).index == p.index
    decreases |events|
  {
    if events != [] {
      var q := Step(p, events[0], n);
      assert q.index == p.index && !q.tweening;
      SinglePictureNeverTweens(q, events[1..], n);
    }
  }

  /** Only wheel events in the sequence, no completion. */
  predicate AllWheels(events: seq<Event>) {
    forall i :: 0 <= i < |events| ==> events[i].WheelEvent?
  }

  /**
   * While a tween runs, any number of wheel events, in either direction,
   * changes nothing: no queueing and no interruption.
   */
  lemma {:induction false} WheelsDroppedWhileTweening(p: Phase, events: seq<Event>, n: nat)
    requires p.tweening && AllWheels(events)
    ensures Run(p, events, n) == p
    decreases |events|
  {
    if events != [] {
      assert events[0].WheelEvent?;
      assert AllWheels(events[1..]) by {
        forall i | 0 <= i < |events[1..]| ensures events[1..][i].WheelEvent? {
          assert events[1..][i] == events[i + 1];
        }
      }
      WheelsDroppedWhileTweening(p, events[1..], n);
    }
  }

  /** Number of tween completions in a sequence of events. */
  function Completions(events: seq<Event>): nat
    decreases |events|
  {
    if events == [] then 0
    else (if events[0].TweenComplete? then 1 else 0) + Completions(events[1..])
  }

  function Dist(a: int, b: int): nat { if a <= b then b - a else a - b }

  function Flag(b: bool): nat { if b then 1 else 0 }

  /**
   * Steps cannot pile up: over any sequence of events the index moves no
   * further than the number of tweens started, and a tween can only start
   * once the previous one completed.
   */
  lemma {:induction false} IndexMovesOncePerTween(p: Phase, events: seq<Event>, n: nat)
    ensures Dist(p.index, Run(p, events, n).index) + Flag(p.tweening)
            <= Completions(events) + Flag(Run(p, events, n).tweening)
    decreases |events|
  {
    if events != [] {
      IndexMovesOncePerTween(Step(p, events[0], n), events[1..], n);
    }
  }
}
