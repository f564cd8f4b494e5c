/**
 * The controller's invariants are kept by every operation: `Wf` from creation
 * on, whatever happens, and `Running` by every timer event once the cycle has
 * been started from the fresh controller.
 */
module EngineInvariants {

  import opened Wrappers
  import opened Timing
  import opened Phases
  import opened ColorSchedule
  import opened AnimationEngine

  lemma InitialWf()
    ensures Wf(Initial) && !Running(Initial)
  {
  }

  /** The three color changes of a stable phase are all due before it ends. */
  lemma QueuedChangesInsideStable(pending: seq<int>)
    requires InsideStable(pending)
    ensures InsideStable(pending + ColorOffsets(StableTime / 3, 3))
  {
    StableSchedule();
  }

  /**
   * Animating makes the invariant hold whatever the pending timer and the
   * targets were, provided a stable phase starts at full opacity and scale.
   */
  lemma AnimateSymbolWf(e: EngineState)
    requires Wf(e.(timer := None, phaseTimers := map[]))
    requires TimersShape(e)
    requires e.currentState == Stable ==> e.symbolOpacity == 1.0 && e.symbolScale == 1.0
    ensures Wf(AnimateSymbol(e))
  {
    if e.currentState == Stable {
      QueuedChangesInsideStable(e.colorChanges);
    }
  }

  /** Moving to the next symbol resets everything else the invariant speaks of. */
  lemma MoveToNextSymbolWf(e: EngineState)
    requires TimersShape(e) && InsideStable(e.colorChanges)
    ensures Wf(MoveToNextSymbol(e))
  {
  }

  /**
   * Advancing keeps the invariant once the cycle has begun.  Entering a stable
   * phase keeps the full opacity and scale a fade-in ended with.
   */
  lemma AdvanceStateWf(e: EngineState)
    requires Wf(e) && e.timer.Some?
    ensures Wf(AdvanceState(e))
  {
    var moved := e.(currentState := Next(e.currentState));
    if moved.currentState == FadeIn {
      MoveToNextSymbolWf(moved.(currentIndex := if moved.currentIndex >= |Catalog| then 0 else moved.currentIndex));
    } else {
      AnimateSymbolWf(moved);
    }
  }

  lemma ScheduleDisplayTimerWf(e: EngineState)
    requires Wf(e)
    ensures Wf(ScheduleDisplayTimer(e))
  {
  }

  /** Starting keeps the invariant, even when the cycle is already running. */
  lemma StartWf(e: EngineState)
    requires Wf(e)
    ensures Wf(Start(e))
  {
    MoveToNextSymbolWf(e);
    ScheduleDisplayTimerWf(MoveToNextSymbol(e));
  }

  /** Started once from the fresh controller, the cycle runs and shows the first symbol. */
  lemma StartRuns()
    ensures Running(Start(Initial))
    ensures Start(Initial).currentSymbol == Some(Catalog[0]) && Start(Initial).currentState == FadeIn
  {
    StartWf(Initial);
  }

  lemma FirePhaseTimerWf(e: EngineState, h: Handle)
    requires Wf(e)
    ensures Wf(FirePhaseTimer(e, h))
  {
    if h in e.phaseTimers {
      AdvanceStateWf(e.(phaseTimers := e.phaseTimers - {h}));
    }
  }

  /** A phase-advance firing keeps the cycle running: one live timer of each kind, the index within the catalog. */
  lemma FirePhaseTimerRuns(e: EngineState, h: Handle)
    requires Running(e)
    ensures Running(FirePhaseTimer(e, h))
  {
    FirePhaseTimerWf(e, h);
  }

  lemma TickRuns(e: EngineState, h: Handle)
    ensures Wf(e) ==> Wf(Tick(e, h))
    ensures Running(e) ==> Running(Tick(e, h))
  {
  }

  lemma FireColorChangeRuns(e: EngineState, red: real, green: real, blue: real)
    requires 0.0 <= red <= 1.0 && 0.0 <= green <= 1.0 && 0.0 <= blue <= 1.0
    ensures Wf(e) ==> Wf(FireColorChange(e, red, green, blue))
    ensures Running(e) ==> Running(FireColorChange(e, red, green, blue))
  {
  }
}
