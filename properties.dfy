/**
 * Properties of whole runs of the state machine: the phase sequence, the
 * order in which symbols are shown, the time a number of cycles takes, and
 * the display ticker's count.
 *
 * The inductions over runs are proved once for an arbitrary step function and
 * invariant, and then applied to the controller's timers, so that the solver
 * never has to unfold a long run of the transition functions.
 */
module EngineProperties {

  import opened Wrappers
  import opened Timing
  import opened Phases
  import opened AnimationEngine
  import opened EngineInvariants

  /** The state after `n` applications of `step`. */
  function Repeat(step: EngineState -> EngineState, e: EngineState, n: nat): EngineState
    decreases n
  {
    if n == 0 then e else step(Repeat(step, e, n - 1))
  }

  /** The interval of the live phase-advance timer the controller references, 0 if none. */
  function PendingInterval(e: EngineState): nat
  {
    if e.timer.Some? && e.timer.value in e.phaseTimers then e.phaseTimers[e.timer.value] else 0
  }

  /** The sum of the pending intervals over the first `n` states of a run of `step`. */
  function Elapsed(step: EngineState -> EngineState, e: EngineState, n: nat): nat
    decreases n
  {
    if n == 0 then 0 else Elapsed(step, e, n - 1) + PendingInterval(Repeat(step, e, n - 1))
  }

  /** The pending phase-advance timer fires (nothing happens when none is referenced). */
  function FirePending(e: EngineState): EngineState
  {
    if e.timer.Some? then FirePhaseTimer(e, e.timer.value) else e
  }

  /** The state after the pending phase-advance timer has fired `n` times in a row. */
  function FireRepeatedly(e: EngineState, n: nat): EngineState
  {
    Repeat(FirePending, e, n)
  }

  /** The time the first `n` phase-advance firings take, each timer running its full interval. */
  function TimeOfFires(e: EngineState, n: nat): nat
  {
    Elapsed(FirePending, e, n)
  }

  /** The live display timer fires (nothing happens when none is referenced). */
  function TickPending(e: EngineState): EngineState
  {
    if e.displayTimer.Some? then Tick(e, e.displayTimer.value) else e
  }

  /** The state after the live display timer has fired `n` times in a row. */
  function TickRepeatedly(e: EngineState, n: nat): EngineState
  {
    Repeat(TickPending, e, n)
  }

  /** Position in the catalog of the symbol on show (the index has already moved past it). */
  function ShownIndex(e: EngineState): int
  {
    e.currentIndex - 1
  }

  /** While running, the symbol on show is the catalog entry at `ShownIndex`. */
  lemma ShownSymbol(e: EngineState)
    requires Running(e)
    ensures 0 <= ShownIndex(e) < |Catalog| && e.currentSymbol == Some(Catalog[ShownIndex(e)])
  {
  }

  /** Whether one application of `step` from `x`, if `x` satisfies `inv`, advances the phase. */
  predicate PhaseStep(step: EngineState -> EngineState, inv: EngineState -> bool, x: EngineState)
  {
    inv(x) ==> inv(step(x)) && step(x).currentState == Next(x.currentState)
  }

  /** Runs of any step function that advances the phase follow `Next`. */
  lemma {:induction false} RepeatPhases(step: EngineState -> EngineState, inv: EngineState -> bool, e: EngineState, n: nat)
    requires inv(e)
    requires forall x :: PhaseStep(step, inv, x)
    ensures inv(Repeat(step, e, n))
    ensures Repeat(step, e, n).currentState == Iterate(e.currentState, n)
    decreases n
  {
    if n > 0 {
      RepeatPhases(step, inv, e, n - 1);
      assert PhaseStep(step, inv, Repeat(step, e, n - 1));
      IterateLast(e.currentState, n - 1);
    }
  }

  /** One firing moves to the next symbol exactly when it enters a fade-in. */
  lemma OneFiring(e: EngineState)
    requires Running(e)
    ensures Running(FirePending(e))
    ensures FirePending(e).currentState == Next(e.currentState)
    ensures ShownIndex(FirePending(e)) ==
              if Next(e.currentState) == FadeIn then Position(ShownIndex(e) + 1) else ShownIndex(e)
  {
    FirePhaseTimerRuns(e, e.timer.value);
  }

  /**
   * While running, the phases follow each other as `Next` dictates, never
   * skipping one, and the cycle keeps running.
   */
  lemma PhaseSequence(e: EngineState, n: nat)
    requires Running(e)
    ensures Running(FireRepeatedly(e, n))
    ensures FireRepeatedly(e, n).currentState == Iterate(e.currentState, n)
  {
    forall x
      ensures PhaseStep(FirePending, Running, x)
    {
      if Running(x) {
        OneFiring(x);
      }
    }
    RepeatPhases(FirePending, Running, e, n);
  }

  /**
   * One full cycle of three phases comes back to the same phase, shows the
   * following symbol of the catalog, cyclically, and takes one display cycle.
   */
  lemma OneCycle(e: EngineState)
    requires Running(e)
    ensures Running(FirePending(FirePending(FirePending(e))))
    ensures FirePending(FirePending(FirePending(e))).currentState == e.currentState
    ensures ShownIndex(FirePending(FirePending(FirePending(e)))) == Position(ShownIndex(e) + 1)
    ensures PendingInterval(e) + PendingInterval(FirePending(e)) + PendingInterval(FirePending(FirePending(e)))
            == TotalDisplayTime
  {
    var e1 := FirePending(e);
    OneFiring(e);
    var e2 := FirePending(e1);
    OneFiring(e1);
    OneFiring(e2);
    NextIsThreeCycle(e.currentState);
    CycleFillsDisplayTime(e.currentState);
  }

  /**
   * Whether three applications of `step` from `x`, if `x` satisfies `inv`,
   * make one display cycle: `inv` holds again, the phase is the same, the
   * symbol shown is the following one, and the pending intervals add up to the
   * display time.
   */
  predicate CycleStep(step: EngineState -> EngineState, inv: EngineState -> bool, x: EngineState)
  {
    inv(x) ==>
      var y := step(step(step(x)));
      && inv(y)
      && y.currentState == x.currentState
      && ShownIndex(y) == Position(ShownIndex(x) + 1)
      && PendingInterval(x) + PendingInterval(step(x)) + PendingInterval(step(step(x))) == TotalDisplayTime
  }

  /** Wrapping to the following position commutes with wrapping around the catalog. */
  lemma PositionSuccessor(b: nat)
    ensures Position(Position(b) + 1) == Position(b + 1)
  {
    assert |Catalog| == 6;
  }

  /** Whether `x`, if it satisfies `inv`, shows the catalog entry at `ShownIndex(x)`. */
  predicate ShowsEntry(inv: EngineState -> bool, x: EngineState)
  {
    inv(x) ==> 0 <= ShownIndex(x) < |Catalog| && x.currentSymbol == Some(Catalog[ShownIndex(x)])
  }

  /** Runs of any step function whose three-fold application is a display cycle. */
  lemma {:induction false} RepeatCycles(step: EngineState -> EngineState, inv: EngineState -> bool, e: EngineState, k: nat)
    requires inv(e) && 0 <= ShownIndex(e) < |Catalog|
    requires forall x :: CycleStep(step, inv, x)
    ensures inv(Repeat(step, e, 3 * k))
    ensures Repeat(step, e, 3 * k).currentState == e.currentState
    ensures ShownIndex(Repeat(step, e, 3 * k)) == Position(ShownIndex(e) + k)
    decreases k
  {
    if k > 0 {
      var n := 3 * (k - 1);
      RepeatCycles(step, inv, e, k - 1);
      var x := Repeat(step, e, n);
      assert CycleStep(step, inv, x);
      assert Repeat(step, e, 3 * k) == step(step(step(x))) by {
        assert Repeat(step, e, n + 1) == step(x);
        assert Repeat(step, e, n + 2) == step(step(x));
      }
      PositionSuccessor(ShownIndex(e) + k - 1);
    }
  }

  /**
   * Whether three applications of `step` from `x`, if `x` satisfies `inv`,
   * keep `inv` and wait out pending intervals that add up to the display time.
   */
  predicate TimedCycle(step: EngineState -> EngineState, inv: EngineState -> bool, x: EngineState)
  {
    inv(x) ==>
      && inv(step(step(step(x))))
      && PendingInterval(x) + PendingInterval(step(x)) + PendingInterval(step(step(x))) == TotalDisplayTime
  }

  /** Runs of any step function whose cycles take the display time take one display cycle per cycle. */
  lemma {:induction false} RepeatCyclesTime(step: EngineState -> EngineState, inv: EngineState -> bool, e: EngineState, k: nat)
    requires inv(e)
    requires forall x :: TimedCycle(step, inv, x)
    ensures inv(Repeat(step, e, 3 * k))
    ensures Elapsed(step, e, 3 * k) == k * TotalDisplayTime
    decreases k
  {
    if k > 0 {
      var n := 3 * (k - 1);
      RepeatCyclesTime(step, inv, e, k - 1);
      var x := Repeat(step, e, n);
      assert TimedCycle(step, inv, x);
      assert Repeat(step, e, n + 1) == step(x);
      assert Repeat(step, e, n + 2) == step(step(x));
      assert Elapsed(step, e, n + 1) == Elapsed(step, e, n) + PendingInterval(x);
      assert Elapsed(step, e, n + 2) == Elapsed(step, e, n + 1) + PendingInterval(step(x));
      assert Elapsed(step, e, 3 * k) == Elapsed(step, e, n + 2) + PendingInterval(step(step(x)));
    }
  }

  /**
   * After `k` full cycles the symbol shown is `k` places further on in the
   * catalog, wrapping around, and exactly `k` display cycles of time have passed.
   */
  lemma SymbolsCycle(e: EngineState, k: nat)
    requires Running(e)
    ensures Running(FireRepeatedly(e, 3 * k))
    ensures FireRepeatedly(e, 3 * k).currentState == e.currentState
    ensures ShownIndex(FireRepeatedly(e, 3 * k)) == Position(ShownIndex(e) + k)
    ensures FireRepeatedly(e, 3 * k).currentSymbol == Some(Catalog[Position(ShownIndex(e) + k)])
    ensures TimeOfFires(e, 3 * k) == k * TotalDisplayTime
  {
    forall x
      ensures CycleStep(FirePending, Running, x) && TimedCycle(FirePending, Running, x)
      ensures ShowsEntry(Running, x)
    {
      if Running(x) {
        OneCycle(x);
        ShownSymbol(x);
      }
    }
    RepeatCycles(FirePending, Running, e, k);
    RepeatCyclesTime(FirePending, Running, e, k);
    assert ShowsEntry(Running, FireRepeatedly(e, 3 * k));
  }

  /** Runs of any step function whose three-fold application is a display cycle repeat their symbols every six cycles. */
  lemma RepeatPeriod(step: EngineState -> EngineState, inv: EngineState -> bool, e: EngineState, k: nat)
    requires inv(e) && 0 <= ShownIndex(e) < |Catalog|
    requires forall x :: CycleStep(step, inv, x)
    requires forall x :: ShowsEntry(inv, x)
    ensures Repeat(step, e, 3 * (k + |Catalog|)).currentSymbol == Repeat(step, e, 3 * k).currentSymbol
  {
    var a := ShownIndex(e) + k;
    var later := k + |Catalog|;
    var early, late := Repeat(step, e, 3 * k), Repeat(step, e, 3 * later);
    RepeatCycles(step, inv, e, k);
    RepeatCycles(step, inv, e, later);
    PositionPeriod(a);
    assert ShownIndex(e) + later == a + |Catalog|;
    assert ShownIndex(late) == ShownIndex(early);
    assert ShowsEntry(inv, early) && ShowsEntry(inv, late);
  }

  /** The symbols shown at the starts of display cycles repeat with a period of six cycles. */
  lemma SymbolsRepeatAfterSixCycles(e: EngineState, k: nat)
    requires Running(e)
    ensures FireRepeatedly(e, 3 * (k + |Catalog|)).currentSymbol == FireRepeatedly(e, 3 * k).currentSymbol
  {
    forall x
      ensures CycleStep(FirePending, Running, x) && ShowsEntry(Running, x)
    {
      if Running(x) {
        OneCycle(x);
        ShownSymbol(x);
      }
    }
    ShownSymbol(e);
    RepeatPeriod(FirePending, Running, e, k);
  }

  lemma PositionPeriod(b: nat)
    ensures Position(b + |Catalog|) == Position(b)
  {
    assert |Catalog| == 6;
  }

  /**
   * From a running state that has just begun a fade-in of the first symbol,
   * `k` display cycles later a fade-in of the symbol at index `k` modulo six begins.
   */
  lemma CyclesFromFirstSymbol(e: EngineState, k: nat)
    requires Running(e) && e.currentState == FadeIn && ShownIndex(e) == 0
    ensures FireRepeatedly(e, 3 * k).currentState == FadeIn
    ensures FireRepeatedly(e, 3 * k).currentSymbol == Some(Catalog[Position(k)])
    ensures TimeOfFires(e, 3 * k) == k * TotalDisplayTime
  {
    SymbolsCycle(e, k);
    assert ShownIndex(e) + k == k;
  }

  /**
   * A session started from the fresh controller: after `k` display cycles a
   * fade-in of the symbol at index `k` modulo six begins; in particular the
   * second cycle shows the second symbol and the seventh shows the first again.
   */
  lemma Session(k: nat)
    ensures FireRepeatedly(Start(Initial), 3 * k).currentState == FadeIn
    ensures FireRepeatedly(Start(Initial), 3 * k).currentSymbol == Some(Catalog[Position(k)])
    ensures TimeOfFires(Start(Initial), 3 * k) == k * TotalDisplayTime
  {
    StartRuns();
    CyclesFromFirstSymbol(Start(Initial), k);
  }

  /** Whether one application of `step` from `x`, if `x` satisfies `inv`, counts one tick. */
  predicate TickStep(step: EngineState -> EngineState, inv: EngineState -> bool, x: EngineState)
  {
    inv(x) ==> inv(step(x)) && step(x).timeElapsed == (x.timeElapsed + 1) % TotalDisplayTime
  }

  /** Counting on by one commutes with wrapping at a display cycle. */
  lemma WrapSuccessor(a: nat)
    ensures (a % TotalDisplayTime + 1) % TotalDisplayTime == (a + 1) % TotalDisplayTime
  {
    assert TotalDisplayTime == 100;
  }

  /** Runs of any step function that counts ticks count modulo one display cycle. */
  lemma {:induction false} RepeatTicks(step: EngineState -> EngineState, inv: EngineState -> bool, e: EngineState, n: nat)
    requires inv(e) && e.timeElapsed < TotalDisplayTime
    requires forall x :: TickStep(step, inv, x)
    ensures inv(Repeat(step, e, n))
    ensures Repeat(step, e, n).timeElapsed == (e.timeElapsed + n) % TotalDisplayTime
    decreases n
  {
    if n > 0 {
      RepeatTicks(step, inv, e, n - 1);
      assert TickStep(step, inv, Repeat(step, e, n - 1));
      WrapSuccessor(e.timeElapsed + n - 1);
    }
  }

  /** While running, the display ticker counts ticks modulo one display cycle. */
  lemma TickCount(e: EngineState, n: nat)
    requires Running(e)
    ensures Running(TickRepeatedly(e, n))
    ensures TickRepeatedly(e, n).timeElapsed == (e.timeElapsed + n) % TotalDisplayTime
  {
    forall x
      ensures TickStep(TickPending, Running, x)
    {
      if Running(x) {
        TickRuns(x, x.displayTimer.value);
      }
    }
    RepeatTicks(TickPending, Running, e, n);
  }

  /**
   * Starting again while running keeps exactly one timer of each kind live, and
   * the modulo at the symbol lookup keeps it inside the catalog, but the index
   * can then pass the catalog size, leaving the bound of `Running`.
   */
  lemma RestartWhileRunning(e: EngineState)
    requires Running(e) && e.currentIndex == |Catalog|
    ensures Wf(Start(e)) && !Running(Start(e))
    ensures Start(e).currentIndex == |Catalog| + 1 && Start(e).currentSymbol == Some(Catalog[0])
    ensures Start(e).phaseTimers.Keys == {Start(e).timer.value}
    ensures Start(e).displayTimers == {Start(e).displayTimer.value}
  {
    StartWf(e);
  }
}
