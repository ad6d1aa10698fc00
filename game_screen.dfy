/**
 * The game screen: the fixed-step frame loop of `GameScreen.render`, the
 * engine configuration of `setupEngine`, and the screen's input handlers.
 *
 * Time is `real` seconds. The physics step (`Env.STEP`) and the catch-up
 * ceiling (`Env.MAX_STEP`) are parameters of the screen. The calls the loop
 * makes into the engine (`PhysicsSystem.setAlpha`, `Engine.update`,
 * `RenderingSystem.update`) are recorded, in order, as a trace of events.
 */
module Screens {
  import opened Input

  /** One call the frame loop makes into the engine. */
  datatype Event =
    | SetAlpha(alpha: real)       // PhysicsSystem.setAlpha
    | EngineUpdate(delta: real)   // Engine.update: one tick of every processing system
    | RenderUpdate(delta: real)   // RenderingSystem.update, called directly

  // ---------------------------------------------------------------------------
  // Frame arithmetic

  /** `Math.min(newTime - currentTime, MAX_STEP)`: the wall-clock delta, clamped. */
  function FrameTime(newTime: real, currentTime: real, maxStep: real): (f: real)
    ensures f <= maxStep && f <= newTime - currentTime
    ensures f == maxStep || f == newTime - currentTime
  {
    if newTime - currentTime <= maxStep then newTime - currentTime else maxStep
  }

  // Facts about real products and quotients by a positive step.

  lemma PositiveProduct(a: real, b: real)
    requires a > 0.0 && b > 0.0
    ensures a * b > 0.0
  {}

  lemma CancelFactor(a: real, b: real, s: real)
    requires s > 0.0 && a * s == b * s
    ensures a == b
  {
    if a < b { PositiveProduct(b - a, s); }
    else if a > b { PositiveProduct(a - b, s); }
  }

  lemma QuotientTimesDivisor(x: real, s: real)
    requires s > 0.0
    ensures (x / s) * s == x
  {}

  lemma QuotientBelow(x: real, s: real, c: real)
    requires s > 0.0 && x < c * s
    ensures x / s < c
  {
    QuotientTimesDivisor(x, s);
  }

  lemma QuotientAtLeast(x: real, s: real, c: real)
    requires s > 0.0 && x >= c * s
    ensures x / s >= c
  {
    QuotientTimesDivisor(x, s);
  }

  /**
   * Subtracting one STEP from an accumulator of at least one STEP lowers
   * floor(acc / STEP) by exactly one: the measure that makes the loop stop.
   */
  lemma FloorStep(acc: real, step: real)
    requires 0.0 < step <= acc
    ensures (acc / step).Floor >= 1
    ensures ((acc - step) / step).Floor == (acc / step).Floor - 1
  {
    var q := acc / step;
    QuotientTimesDivisor(acc, step);
    QuotientTimesDivisor(acc - step, step);
    assert (q - 1.0) * step == acc - step;
    CancelFactor((acc - step) / step, q - 1.0, step);
    QuotientAtLeast(acc, step, 1.0);
  }

  /** How often the loop body runs on an accumulator holding `acc`. */
  function TickCount(acc: real, step: real): (n: nat)
    requires step > 0.0
    decreases if acc < step then 0 else (acc / step).Floor
  {
    if acc < step then 0
    else
      FloorStep(acc, step);
      1 + TickCount(acc - step, step)
  }

  /** The closed form: on a non-negative accumulator the loop runs floor(acc / step) times. */
  lemma {:induction false} TickCountIsFloor(acc: real, step: real)
    requires step > 0.0 && acc >= 0.0
    ensures TickCount(acc, step) == (acc / step).Floor
    decreases TickCount(acc, step)
  {
    if acc < step {
      QuotientBelow(acc, step, 1.0);
      QuotientAtLeast(acc, step, 0.0);
    } else {
      FloorStep(acc, step);
      TickCountIsFloor(acc - step, step);
    }
  }

  /** What the `while` loop leaves behind: the calls it made and the residual accumulator. */
  datatype Drained = Drained(events: seq<Event>, residual: real)

  /**
   * The catch-up loop of `render` started on an accumulator holding `acc`:
   * as long as at least one step is banked, it hands the physics system the
   * step's share of the accumulator as interpolation alpha, ticks the engine
   * with the frame delta, and takes one step off.
   */
  function Drain(acc: real, step: real, delta: real): (d: Drained)
    requires step > 0.0
    decreases TickCount(acc, step)
  {
    if acc < step then Drained([], acc)
    else
      var rest := Drain(acc - step, step, delta);
      Drained([SetAlpha(step / acc), EngineUpdate(delta)] + rest.events, rest.residual)
  }

  /** The number of engine ticks in a trace. */
  function CountUpdates(t: seq<Event>): (n: nat)
  {
    if t == [] then 0 else (if t[0].EngineUpdate? then 1 else 0) + CountUpdates(t[1..])
  }

  /** The number of direct rendering updates in a trace. */
  function CountRenders(t: seq<Event>): (n: nat)
  {
    if t == [] then 0 else (if t[0].RenderUpdate? then 1 else 0) + CountRenders(t[1..])
  }

  lemma {:induction false} CountsOfConcat(a: seq<Event>, b: seq<Event>)
    ensures CountUpdates(a + b) == CountUpdates(a) + CountUpdates(b)
    ensures CountRenders(a + b) == CountRenders(a) + CountRenders(b)
  {
    if a == [] {
      assert a + b == b;
    } else {
      assert (a + b)[0] == a[0] && (a + b)[1..] == a[1..] + b;
      CountsOfConcat(a[1..], b);
    }
  }

  /**
   * When the loop stops the accumulator is below one step, it has lost
   * exactly one step per tick, and it has not gone below zero unless it
   * started there.
   */
  lemma {:induction false} DrainResidual(acc: real, step: real, delta: real)
    requires step > 0.0
    ensures Drain(acc, step, delta).residual < step
    ensures Drain(acc, step, delta).residual == acc - (TickCount(acc, step) as real) * step
    ensures acc >= 0.0 ==> Drain(acc, step, delta).residual >= 0.0
    decreases TickCount(acc, step)
  {
    if acc >= step {
      DrainResidual(acc - step, step, delta);
    }
  }

  /** The accumulator after k passes of the loop body: k steps subtracted one at a time. */
  function AfterPasses(acc: real, step: real, k: nat): (a: real)
    decreases k
  {
    if k == 0 then acc else AfterPasses(acc - step, step, k - 1)
  }

  /** k passes take exactly k steps off. */
  lemma {:induction false} AfterPassesClosedForm(acc: real, step: real, k: nat)
    ensures AfterPasses(acc, step, k) == acc - (k as real) * step
    decreases k
  {
    if k > 0 {
      AfterPassesClosedForm(acc - step, step, k - 1);
      assert (acc - step) - ((k - 1) as real) * step == acc - (k as real) * step;
    }
  }

  /**
   * The loop makes one `setAlpha` and then one `engine.update` call per tick:
   * pass k (counting from 0) runs while the accumulator still holds at least
   * one step, hands the physics system STEP divided by the accumulator as it
   * stands before the k-th subtraction, and then ticks the engine with the
   * frame delta.
   */
  lemma {:induction false} DrainPassAt(acc: real, step: real, delta: real, k: nat)
    requires step > 0.0 && k < TickCount(acc, step)
    ensures |Drain(acc, step, delta).events| == 2 * TickCount(acc, step)
    ensures AfterPasses(acc, step, k) == acc - (k as real) * step
    ensures AfterPasses(acc, step, k) >= step
    ensures Drain(acc, step, delta).events[2 * k] == SetAlpha(step / AfterPasses(acc, step, k))
    ensures Drain(acc, step, delta).events[2 * k + 1] == EngineUpdate(delta)
    decreases k
  {
    AfterPassesClosedForm(acc, step, k);
    var rest := Drain(acc - step, step, delta).events;
    assert Drain(acc, step, delta).events == [SetAlpha(step / acc), EngineUpdate(delta)] + rest;
    DrainLength(acc - step, step, delta);
    if k > 0 {
      DrainPassAt(acc - step, step, delta, k - 1);
      assert Drain(acc, step, delta).events[2 * k] == rest[2 * (k - 1)];
      assert Drain(acc, step, delta).events[2 * k + 1] == rest[2 * (k - 1) + 1];
    }
  }

  lemma {:induction false} DrainLength(acc: real, step: real, delta: real)
    requires step > 0.0
    ensures |Drain(acc, step, delta).events| == 2 * TickCount(acc, step)
    decreases TickCount(acc, step)
  {
    if acc >= step {
      DrainLength(acc - step, step, delta);
    }
  }

  /** The loop calls `engine.update` once per tick and never the rendering system. */
  lemma {:induction false} DrainCounts(acc: real, step: real, delta: real)
    requires step > 0.0
    ensures CountUpdates(Drain(acc, step, delta).events) == TickCount(acc, step)
    ensures CountRenders(Drain(acc, step, delta).events) == 0
    decreases TickCount(acc, step)
  {
    if acc >= step {
      DrainCounts(acc - step, step, delta);
      CountsOfConcat([SetAlpha(step / acc), EngineUpdate(delta)], Drain(acc - step, step, delta).events);
    }
  }

  /** Every `engine.update` of one frame receives the same delta: the clamped frame time, not STEP. */
  lemma {:induction false} DrainDeltas(acc: real, step: real, delta: real)
    requires step > 0.0
    ensures forall e :: e in Drain(acc, step, delta).events && e.EngineUpdate? ==> e.delta == delta
    decreases TickCount(acc, step)
  {
    if acc >= step {
      DrainDeltas(acc - step, step, delta);
    }
  }

  lemma AlphaInUnit(step: real, acc: real)
    requires 0.0 < step <= acc
    ensures 0.0 < step / acc <= 1.0
  {
    var q := step / acc;
    QuotientTimesDivisor(step, acc);
    if q < 0.0 {
      PositiveProduct(-q, acc);
    }
    if step < acc {
      QuotientBelow(step, acc, 1.0);
    }
  }

  /** The loop guard holds whenever `setAlpha` is called, so every alpha lies in (0, 1]. */
  lemma {:induction false} DrainAlphaBounds(acc: real, step: real, delta: real)
    requires step > 0.0
    ensures forall e :: e in Drain(acc, step, delta).events && e.SetAlpha? ==> 0.0 < e.alpha <= 1.0
    decreases TickCount(acc, step)
  {
    if acc >= step {
      DrainAlphaBounds(acc - step, step, delta);
      AlphaInUnit(step, acc);
    }
  }

  // ---------------------------------------------------------------------------
  // One frame, and a run of frames

  /** The two fields `render` updates. */
  datatype Clock = Clock(accumulator: real, currentTime: real)

  /** The fields after one call of `render`, and the calls it made into the engine. */
  datatype Frame = Frame(clock: Clock, events: seq<Event>)

  /**
   * One call of `render` at wall-clock time `newTime`: clamp the frame time,
   * store the new time, add the frame time to the accumulator, drain it in
   * fixed steps, then update the rendering system once with STEP.
   */
  function RenderFrame(c: Clock, newTime: real, step: real, maxStep: real): (f: Frame)
    requires step > 0.0
  {
    var frameTime := FrameTime(newTime, c.currentTime, maxStep);
    var d := Drain(c.accumulator + frameTime, step, frameTime);
    Frame(Clock(d.residual, newTime), d.events + [RenderUpdate(step)])
  }

  /** The clock after one frame: it moves to `newTime`, at most `MAX_STEP` is banked, and floor-many steps are taken off, leaving less than one STEP. */
  lemma RenderFrameClock(c: Clock, newTime: real, step: real, maxStep: real)
    requires step > 0.0
    ensures var f := RenderFrame(c, newTime, step, maxStep);
      var frameTime := FrameTime(newTime, c.currentTime, maxStep);
      var n := TickCount(c.accumulator + frameTime, step);
      && f.clock.currentTime == newTime
      && frameTime <= maxStep
      && f.clock.accumulator < step
      && f.clock.accumulator == c.accumulator + frameTime - (n as real) * step
      && (c.accumulator + frameTime >= 0.0 ==>
            f.clock.accumulator >= 0.0 && n == ((c.accumulator + frameTime) / step).Floor)
  {
    var frameTime := FrameTime(newTime, c.currentTime, maxStep);
    var acc := c.accumulator + frameTime;
    DrainResidual(acc, step, frameTime);
    if acc >= 0.0 {
      TickCountIsFloor(acc, step);
    }
  }

  /** The calls of one frame: one engine tick per step taken off, all with the frame delta, alphas in (0, 1], and the rendering system updated exactly once, last. */
  lemma RenderFrameTrace(c: Clock, newTime: real, step: real, maxStep: real)
    requires step > 0.0
    ensures var f := RenderFrame(c, newTime, step, maxStep);
      var frameTime := FrameTime(newTime, c.currentTime, maxStep);
      && CountUpdates(f.events) == TickCount(c.accumulator + frameTime, step)
      && (forall e :: e in f.events && e.EngineUpdate? ==> e.delta == frameTime)
      && (forall e :: e in f.events && e.SetAlpha? ==> 0.0 < e.alpha <= 1.0)
      && CountRenders(f.events) == 1
      && f.events[|f.events| - 1] == RenderUpdate(step)
  {
    var frameTime := FrameTime(newTime, c.currentTime, maxStep);
    var acc := c.accumulator + frameTime;
    var d := Drain(acc, step, frameTime);
    var f := RenderFrame(c, newTime, step, maxStep);
    assert f.events == d.events + [RenderUpdate(step)];
    DrainCounts(acc, step, frameTime);
    DrainDeltas(acc, step, frameTime);
    DrainAlphaBounds(acc, step, frameTime);
    CountsOfConcat(d.events, [RenderUpdate(step)]);
    assert CountRenders([RenderUpdate(step)]) == 1 by {
      assert [RenderUpdate(step)][1..] == [];
    }
    forall e | e in f.events
      ensures e in d.events || e == RenderUpdate(step)
    {}
  }

  /** Successive calls of `render`, at the wall-clock times `times`. */
  function RenderFrames(c: Clock, times: seq<real>, step: real, maxStep: real): (f: Frame)
    requires step > 0.0
    decreases |times|
  {
    if times == [] then Frame(c, [])
    else
      var first := RenderFrame(c, times[0], step, maxStep);
      var rest := RenderFrames(first.clock, times[1..], step, maxStep);
      Frame(rest.clock, first.events + rest.events)
  }

  /** The simulated time a run of frames adds: the sum of its clamped frame times. */
  function Elapsed(currentTime: real, times: seq<real>, maxStep: real): (e: real)
    decreases |times|
  {
    if times == [] then 0.0
    else FrameTime(times[0], currentTime, maxStep) + Elapsed(times[0], times[1..], maxStep)
  }

  /** The wall clock never runs backwards. */
  ghost predicate Monotone(currentTime: real, times: seq<real>)
  {
    && (|times| > 0 ==> currentTime <= times[0])
    && (forall i :: 0 < i < |times| ==> times[i - 1] <= times[i])
  }

  lemma MonotoneTail(currentTime: real, times: seq<real>)
    requires |times| > 0 && Monotone(currentTime, times)
    ensures currentTime <= times[0] && Monotone(times[0], times[1..])
  {
    forall i | 0 < i < |times[1..]|
      ensures times[1..][i - 1] <= times[1..][i]
    {
      assert times[1..][i - 1] == times[i] && times[1..][i] == times[i + 1];
    }
  }

  lemma {:induction false} ElapsedNonNegative(currentTime: real, times: seq<real>, maxStep: real)
    requires maxStep >= 0.0 && Monotone(currentTime, times)
    ensures Elapsed(currentTime, times, maxStep) >= 0.0
    decreases |times|
  {
    if times != [] {
      MonotoneTail(currentTime, times);
      ElapsedNonNegative(times[0], times[1..], maxStep);
    }
  }

  /**
   * Draining x and then the residual plus e ticks as often, and leaves the
   * same residual, as draining x + e in one go.
   */
  lemma {:induction false} DrainSplit(x: real, e: real, step: real)
    requires step > 0.0 && e >= 0.0
    ensures var r := Drain(x, step, 0.0).residual;
      && TickCount(x, step) + TickCount(r + e, step) == TickCount(x + e, step)
      && Drain(r + e, step, 0.0).residual == Drain(x + e, step, 0.0).residual
    decreases TickCount(x, step)
  {
    if x >= step {
      DrainSplit(x - step, e, step);
      assert (x - step) + e == (x + e) - step;
    }
  }

  /** The residual of a drain does not depend on the delta handed to the ticks. */
  lemma {:induction false} DrainResidualIndependent(acc: real, step: real, d1: real, d2: real)
    requires step > 0.0
    ensures Drain(acc, step, d1).residual == Drain(acc, step, d2).residual
    decreases TickCount(acc, step)
  {
    if acc >= step {
      DrainResidualIndependent(acc - step, step, d1, d2);
    }
  }

  /**
   * Over any run of frames with a clock that does not go backwards, the
   * engine ticks as often as one drain of the whole banked time would, the
   * accumulator ends where that drain leaves it, and the rendering system is
   * updated once per frame.
   */
  lemma {:induction false} RenderFramesDrain(c: Clock, times: seq<real>, step: real, maxStep: real)
    requires step > 0.0 && maxStep >= 0.0 && 0.0 <= c.accumulator < step
    requires Monotone(c.currentTime, times)
    ensures var f := RenderFrames(c, times, step, maxStep);
      var total := c.accumulator + Elapsed(c.currentTime, times, maxStep);
      && CountUpdates(f.events) == TickCount(total, step)
      && f.clock.accumulator == Drain(total, step, 0.0).residual
      && CountRenders(f.events) == |times|
    decreases |times|
  {
    if times == [] {
      assert c.accumulator + Elapsed(c.currentTime, times, maxStep) == c.accumulator;
    } else {
      var frameTime := FrameTime(times[0], c.currentTime, maxStep);
      var acc := c.accumulator + frameTime;
      MonotoneTail(c.currentTime, times);
      var d := Drain(acc, step, frameTime);
      var first := RenderFrame(c, times[0], step, maxStep);
      assert first.clock == Clock(d.residual, times[0]);
      assert first.events == d.events + [RenderUpdate(step)];
      DrainResidualIndependent(acc, step, frameTime, 0.0);
      DrainResidual(acc, step, frameTime);
      DrainCounts(acc, step, frameTime);
      CountsOfConcat(d.events, [RenderUpdate(step)]);
      assert CountUpdates([RenderUpdate(step)]) == 0 && CountRenders([RenderUpdate(step)]) == 1 by {
        assert [RenderUpdate(step)][1..] == [];
      }
      var rest := RenderFrames(first.clock, times[1..], step, maxStep);
      RenderFramesDrain(first.clock, times[1..], step, maxStep);
      CountsOfConcat(first.events, rest.events);
      var e := Elapsed(times[0], times[1..], maxStep);
      ElapsedNonNegative(times[0], times[1..], maxStep);
      DrainSplit(acc, e, step);
    }
  }

  /**
   * Over any run of frames with a clock that does not go backwards, starting
   * from an accumulator below one step, the engine ticks exactly
   * floor((acc0 + simulated time) / STEP) times: no banked time is lost or
   * counted twice across frames. The accumulator ends in [0, STEP), where one
   * drain of the whole banked time would leave it, and the rendering system
   * is updated once per frame.
   */
  lemma RenderFramesTicks(c: Clock, times: seq<real>, step: real, maxStep: real)
    requires step > 0.0 && maxStep >= 0.0 && 0.0 <= c.accumulator < step
    requires Monotone(c.currentTime, times)
    ensures var f := RenderFrames(c, times, step, maxStep);
      var total := c.accumulator + Elapsed(c.currentTime, times, maxStep);
      && CountUpdates(f.events) == (total / step).Floor
      && 0.0 <= f.clock.accumulator < step
      && f.clock.accumulator == Drain(total, step, 0.0).residual
      && CountRenders(f.events) == |times|
  {
    var total := c.accumulator + Elapsed(c.currentTime, times, maxStep);
    RenderFramesDrain(c, times, step, maxStep);
    ElapsedNonNegative(c.currentTime, times, maxStep);
    TickCountIsFloor(total, step);
    DrainResidual(total, step, 0.0);
  }

  // ---------------------------------------------------------------------------
  // Engine configuration (setupEngine)

  /** The systems `setupEngine` creates. */
  datatype SystemKind =
    | PhysicsSystem | CameraSystem | LightSystem | ParticleSystem | LayerSystem
    | SpineSystem | CCTvSystem | PlayerSystem | RenderingSystem

  /** One entity system as the engine holds it: its kind and its `priority` and `processing` fields. */
  datatype EntitySystem = EntitySystem(kind: SystemKind, priority: int, processing: bool)

  /** The engine's configuration as a value. */
  datatype EngineConfig = EngineConfig(
    systems: seq<EntitySystem>,   // in the order of `engine.addSystem`
    debug: bool)                  // the rendering system's debug flag

  /** Exactly the configuration `setupEngine` leaves behind. */
  ghost predicate SetUp(c: EngineConfig)
  {
    && c.systems == [
         EntitySystem(PhysicsSystem, 1, true),
         EntitySystem(CameraSystem, 2, true),
         EntitySystem(LightSystem, 3, true),
         EntitySystem(ParticleSystem, 4, true),
         EntitySystem(LayerSystem, 5, true),
         EntitySystem(SpineSystem, 6, true),
         EntitySystem(RenderingSystem, 9, false),
         EntitySystem(CCTvSystem, 7, true),
         EntitySystem(PlayerSystem, 8, true)]
    && c.debug
  }

  /** `order` lists systems by strictly increasing priority. */
  ghost predicate StrictlyIncreasing(order: seq<EntitySystem>)
  {
    forall i, j :: 0 <= i < j < |order| ==> order[i].priority < order[j].priority
  }

  /**
   * `order` is an order in which an engine tick may run the systems: exactly
   * the registered systems whose processing flag is set, lowest priority first.
   */
  ghost predicate IsTickOrder(c: EngineConfig, order: seq<EntitySystem>)
  {
    && StrictlyIncreasing(order)
    && (forall s :: s in order <==> s in c.systems && s.processing)
  }

  /** Two orders that are strictly increasing in priority and hold the same systems are equal. */
  lemma {:induction false} StrictOrderUnique(a: seq<EntitySystem>, b: seq<EntitySystem>)
    requires StrictlyIncreasing(a) && StrictlyIncreasing(b)
    requires forall s :: s in a <==> s in b
    ensures a == b
    decreases |a|
  {
    assert b != [] ==> b[0] in a;
    if a != [] {
      assert a[0] in b && b[0] in a;
      assert a[0] == b[0];
      forall s
        ensures s in a[1..] <==> s in b[1..]
      {
        if s in a[1..] {
          var k :| 1 <= k < |a| && a[k] == s;
          assert s in a;
          var l :| 0 <= l < |b| && b[l] == s;
          assert l != 0 && b[1..][l - 1] == s;
        }
        if s in b[1..] {
          var k :| 1 <= k < |b| && b[k] == s;
          assert s in b;
          var l :| 0 <= l < |a| && a[l] == s;
          assert l != 0 && a[1..][l - 1] == s;
        }
      }
      StrictOrderUnique(a[1..], b[1..]);
    }
  }

  /** The systems a tick runs after `setupEngine`, in priority order. */
  const SetUpTicks: seq<EntitySystem> := [
    EntitySystem(PhysicsSystem, 1, true), EntitySystem(CameraSystem, 2, true),
    EntitySystem(LightSystem, 3, true), EntitySystem(ParticleSystem, 4, true),
    EntitySystem(LayerSystem, 5, true), EntitySystem(SpineSystem, 6, true),
    EntitySystem(CCTvSystem, 7, true), EntitySystem(PlayerSystem, 8, true)]

  /**
   * After `setupEngine` the priorities are pairwise distinct, rendering carries
   * the highest one, and rendering's processing flag is off.
   */
  lemma SetUpPriorities(c: EngineConfig)
    requires SetUp(c)
    ensures forall i, j :: 0 <= i < j < |c.systems| ==> c.systems[i].priority != c.systems[j].priority
    ensures forall s :: s in c.systems ==> s.priority <= 9
    ensures EntitySystem(RenderingSystem, 9, false) in c.systems
    ensures forall s :: s in c.systems && s.kind == RenderingSystem ==> !s.processing
  {
    SetUpDistinct(c);
    SetUpRendering(c);
  }

  lemma SetUpDistinct(c: EngineConfig)
    requires SetUp(c)
    ensures forall i, j :: 0 <= i < j < |c.systems| ==> c.systems[i].priority != c.systems[j].priority
  {
  }

  lemma SetUpRendering(c: EngineConfig)
    requires SetUp(c)
    ensures forall s :: s in c.systems ==> s.priority <= 9
    ensures EntitySystem(RenderingSystem, 9, false) in c.systems
    ensures forall s :: s in c.systems && s.kind == RenderingSystem ==> !s.processing
  {
    assert c.systems[6] == EntitySystem(RenderingSystem, 9, false);
    forall s | s in c.systems
      ensures s.priority <= 9 && (s.kind == RenderingSystem ==> !s.processing)
    {
      var k :| 0 <= k < |c.systems| && c.systems[k] == s;
    }
  }

  /** The k-th system of a tick after `setupEngine` has priority k + 1. */
  lemma SetUpTicksIncreasing()
    ensures StrictlyIncreasing(SetUpTicks)
  {
    assert forall i :: 0 <= i < |SetUpTicks| ==> SetUpTicks[i].priority == i + 1;
  }

  lemma SetUpTicksIsTickOrder(c: EngineConfig)
    requires SetUp(c)
    ensures IsTickOrder(c, SetUpTicks)
  {
    SetUpTicksIncreasing();
    forall s
      ensures s in SetUpTicks <==> s in c.systems && s.processing
    {
      if s in SetUpTicks {
        var k :| 0 <= k < |SetUpTicks| && SetUpTicks[k] == s;
        assert c.systems[if k < 6 then k else k + 1] == s;
      }
      if s in c.systems && s.processing {
        var k :| 0 <= k < |c.systems| && c.systems[k] == s;
        assert k != 6;
        assert SetUpTicks[if k < 6 then k else k - 1] == s;
      }
    }
  }

  /**
   * After `setupEngine` a tick runs physics, camera, light, particle, layer,
   * spine, cctv and player in that order and in no other, although rendering
   * was registered before cctv and player, and rendering is not one of them.
   */
  lemma SetUpTickOrder(c: EngineConfig)
    requires SetUp(c)
    ensures forall order :: IsTickOrder(c, order) <==> order == SetUpTicks
  {
    SetUpTicksIsTickOrder(c);
    forall order | IsTickOrder(c, order)
      ensures order == SetUpTicks
    {
      StrictOrderUnique(order, SetUpTicks);
    }
  }

  /**
   * The tick order does not depend on the order of registration: any engine
   * holding the same systems as `setupEngine` ticks them in the same
   * order.
   */
  lemma SetUpTickOrderAnyRegistration(c: EngineConfig, d: EngineConfig)
    requires SetUp(d) && (forall s :: s in c.systems <==> s in d.systems)
    ensures forall order :: IsTickOrder(c, order) <==> order == SetUpTicks
  {
    SetUpTickOrder(d);
    assert forall order :: IsTickOrder(c, order) <==> IsTickOrder(d, order);
  }

  /** The engine: its registered systems, the rendering debug flag, and the calls the frame loop makes into it. */
  class Engine {
    var systems: seq<EntitySystem>
    var debug: bool
    var trace: seq<Event>

    function Config(): EngineConfig
      reads this
    {
      EngineConfig(systems, debug)
    }

    constructor ()
      ensures systems == [] && !debug && trace == []
    {
      systems, debug, trace := [], false, [];
    }

    /** `Engine.addSystem`: the system joins the engine after those already registered. */
    method AddSystem(s: EntitySystem)
      modifies this`systems
      ensures systems == old(systems) + [s]
    {
      systems := systems + [s];
    }

    /** `EntitySystem.setProcessing` on the registered systems of kind `kind`. */
    method SetProcessing(kind: SystemKind, on: bool)
      modifies this`systems
      ensures |systems| == |old(systems)|
      ensures forall i :: 0 <= i < |systems| ==>
        systems[i] == if old(systems)[i].kind == kind then old(systems)[i].(processing := on) else old(systems)[i]
    {
      var i := 0;
      while i < |systems|
        invariant 0 <= i <= |systems| == |old(systems)|
        invariant forall k :: 0 <= k < i ==>
          systems[k] == if old(systems)[k].kind == kind then old(systems)[k].(processing := on) else old(systems)[k]
        invariant forall k :: i <= k < |systems| ==> systems[k] == old(systems)[k]
      {
        if systems[i].kind == kind {
          systems := systems[i := systems[i].(processing := on)];
        }
        i := i + 1;
      }
    }

    /** `RenderingSystem.setDebug`. */
    method SetDebug(on: bool)
      modifies this`debug
      ensures debug == on
    {
      debug := on;
    }

    /** `RenderingSystem.toggleDebug`. */
    method ToggleDebug()
      modifies this`debug
      ensures debug == !old(debug)
    {
      debug := !debug;
    }

    /** `PhysicsSystem.setAlpha`. */
    method SetPhysicsAlpha(alpha: real)
      modifies this`trace
      ensures trace == old(trace) + [SetAlpha(alpha)]
    {
      trace := trace + [SetAlpha(alpha)];
    }

    /** `Engine.update`: one tick of the processing systems. */
    method Update(delta: real)
      modifies this`trace
      ensures trace == old(trace) + [EngineUpdate(delta)]
    {
      trace := trace + [EngineUpdate(delta)];
    }

    /** `RenderingSystem.update`, called by the screen itself. */
    method UpdateRendering(delta: real)
      modifies this`trace
      ensures trace == old(trace) + [RenderUpdate(delta)]
    {
      trace := trace + [RenderUpdate(delta)];
    }
  }

  /**
   * `setupEngine`: create the systems (processing, as every new entity system
   * is), assign their priorities, register them, then switch rendering to
   * debug drawing and out of engine processing.
   */
  method SetupEngine() returns (engine: Engine)
    ensures fresh(engine)
    ensures SetUp(engine.Config()) && engine.trace == []
  {
    engine := new Engine();

    var physics := EntitySystem(PhysicsSystem, 0, true);
    var camera := EntitySystem(CameraSystem, 0, true);
    var light := EntitySystem(LightSystem, 0, true);
    var particle := EntitySystem(ParticleSystem, 0, true);
    var layer := EntitySystem(LayerSystem, 0, true);
    var spine := EntitySystem(SpineSystem, 0, true);
    var cctv := EntitySystem(CCTvSystem, 0, true);
    var player := EntitySystem(PlayerSystem, 0, true);
    var rendering := EntitySystem(RenderingSystem, 0, true);

    physics := physics.(priority := 1);
    camera := camera.(priority := 2);
    light := light.(priority := 3);
    particle := particle.(priority := 4);
    layer := layer.(priority := 5);
    spine := spine.(priority := 6);
    cctv := cctv.(priority := 7);
    player := player.(priority := 8);
    rendering := rendering.(priority := 9);

    engine.AddSystem(physics);
    engine.AddSystem(camera);
    engine.AddSystem(light);
    engine.AddSystem(particle);
    engine.AddSystem(layer);
    engine.AddSystem(spine);
    engine.AddSystem(rendering);
    engine.AddSystem(cctv);
    engine.AddSystem(player);

    engine.SetDebug(true);
    ghost var registered := engine.systems;
    assert registered == [physics, camera, light, particle, layer, spine, rendering, cctv, player];
    engine.SetProcessing(RenderingSystem, false);
    assert engine.systems == registered[6 := rendering.(processing := false)];
  }

  // ---------------------------------------------------------------------------
  // The screen

  class GameScreen {
    const step: real       // Env.STEP
    const maxStep: real    // Env.MAX_STEP
    const engine: Engine
    var accumulator: real
    var currentTime: real

    function LoopClock(): Clock
      reads this
    {
      Clock(accumulator, currentTime)
    }

    /** The loop invariant the screen keeps between frames. */
    ghost predicate Valid()
      reads this
    {
      step > 0.0 && accumulator < step
    }

    /** The constructor: zeroed clock fields and a freshly set-up engine. */
    constructor (step: real, maxStep: real)
      requires step > 0.0
      ensures this.step == step && this.maxStep == maxStep
      ensures Valid() && accumulator == 0.0 && currentTime == 0.0
      ensures fresh(engine) && SetUp(engine.Config()) && engine.trace == []
    {
      this.step := step;
      this.maxStep := maxStep;
      accumulator := 0.0;
      currentTime := 0.0;
      var e := SetupEngine();
      engine := e;
    }

    /** `render`: one frame at wall-clock time `newTime`. */
    method Render(newTime: real)
      requires Valid()
      modifies this, engine`trace
      ensures Valid()
      ensures LoopClock() == RenderFrame(old(LoopClock()), newTime, step, maxStep).clock
      ensures engine.trace == old(engine.trace) + RenderFrame(old(LoopClock()), newTime, step, maxStep).events
    {
      var frameTime := FrameTime(newTime, currentTime, maxStep);
      var deltaTime := frameTime;

      currentTime := newTime;
      accumulator := accumulator + frameTime;

      ghost var acc0 := accumulator;
      while accumulator >= step
        invariant currentTime == newTime
        invariant old(engine.trace) + Drain(acc0, step, deltaTime).events
               == engine.trace + Drain(accumulator, step, deltaTime).events
        invariant Drain(accumulator, step, deltaTime).residual == Drain(acc0, step, deltaTime).residual
        decreases TickCount(accumulator, step)
      {
        engine.SetPhysicsAlpha(step / accumulator);
        engine.Update(deltaTime);
        accumulator := accumulator - step;
      }
      assert Drain(accumulator, step, deltaTime) == Drained([], accumulator);
      assert engine.trace == old(engine.trace) + Drain(acc0, step, deltaTime).events;

      engine.UpdateRendering(step);
    }

    /**
     * The screen's input callbacks: `keyDown(D)` toggles the rendering
     * system's debug flag and reports the event handled; every other key and
     * every other callback reports it unhandled and changes nothing.
     */
    method HandleInput(e: InputEvent) returns (handled: bool)
      modifies engine`debug
      ensures handled <==> e == KeyDown(KeyCodeD)
      ensures engine.debug == (old(engine.debug) != handled)
    {
      match e {
        case KeyDown(keycode) =>
          if keycode == KeyCodeD {
            engine.ToggleDebug();
            return true;
          }
          return false;
        case _ =>
          return false;
      }
    }
  }
}
