/**
 * The observable controller as a class whose methods update its fields in
 * place, one assignment at a time, as the controller's methods do.  Each
 * method is proved against the function of `AnimationEngine` that specifies
 * it; the event methods (the timers firing and a queued color change running)
 * also keep the invariants proved of those functions.
 */
module Controller {

  import opened Wrappers
  import opened Timing
  import opened Phases
  import opened ColorSchedule
  import AnimationEngine
  import EngineInvariants

  class SymbolsOO {
    var currentSymbol: Option<AnimationEngine.Symbol>
    var symbolOpacity: real
    var symbolScale: real
    var symbolColor: AnimationEngine.Color
    var currentState: Phase
    var timeElapsed: nat
    var currentIndex: nat
    var timer: Option<AnimationEngine.Handle>
    var displayTimer: Option<AnimationEngine.Handle>
    // The run loop's part: live one-shot timers with their intervals, live
    // repeating timers, queued color-change delays, and the next fresh handle.
    var phaseTimers: map<AnimationEngine.Handle, nat>
    var displayTimers: set<AnimationEngine.Handle>
    var colorChanges: seq<int>
    var nextHandle: AnimationEngine.Handle

    /** The controller's fields as one value. */
    function Model(): AnimationEngine.EngineState
      reads this
    {
      AnimationEngine.EngineState(currentSymbol, symbolOpacity, symbolScale, symbolColor, currentState,
                                  timeElapsed, currentIndex, timer, displayTimer, phaseTimers,
                                  displayTimers, colorChanges, nextHandle)
    }

    ghost predicate Valid()
      reads this
    {
      AnimationEngine.Wf(Model())
    }

    ghost predicate Running()
      reads this
    {
      AnimationEngine.Running(Model())
    }

    /** The property initializers: nothing shown yet, black, small and transparent. */
    constructor ()
      ensures Model() == AnimationEngine.Initial
      ensures Valid() && !Running()
    {
      currentSymbol := None;
      symbolOpacity := 0.0;
      symbolScale := 0.2;
      symbolColor := AnimationEngine.Black;
      currentState := FadeIn;
      timeElapsed := 0;
      currentIndex := 0;
      timer := None;
      displayTimer := None;
      phaseTimers := map[];
      displayTimers := {};
      colorChanges := [];
      nextHandle := 0;
      new;
      EngineInvariants.InitialWf();
    }

    /** Shows the first symbol and starts the display ticker. */
    method StartAnimatingSymbols()
      modifies this
      ensures Model() == AnimationEngine.Start(old(Model()))
      ensures old(Valid()) ==> Valid()
      ensures old(Model()) == AnimationEngine.Initial ==> Running()
    {
      ghost var e := Model();
      MoveToNextSymbol();
      ScheduleDisplayTimer();
      if AnimationEngine.Wf(e) {
        EngineInvariants.StartWf(e);
      }
      if e == AnimationEngine.Initial {
        EngineInvariants.StartRuns();
      }
    }

    method MoveToNextSymbol()
      modifies this
      ensures Model() == AnimationEngine.MoveToNextSymbol(old(Model()))
    {
      ghost var e := Model();
      currentSymbol := Some(AnimationEngine.SymbolAt(currentIndex));
      currentIndex := currentIndex + 1;
      currentState := FadeIn;
      symbolOpacity := 0.0;
      symbolScale := 0.2;
      symbolColor := AnimationEngine.Black;
      timeElapsed := 0;
      assert Model() == AnimationEngine.EnterFadeIn(e);
      AnimateSymbol();
    }

    method AnimateSymbol()
      modifies this
      ensures Model() == AnimationEngine.AnimateSymbol(old(Model()))
    {
      if timer.Some? {
        phaseTimers := phaseTimers - {timer.value};
      }
      match currentState {
        case FadeIn =>
          symbolOpacity := 1.0;
          symbolScale := 1.0;
        case Stable =>
          ChangeColorEvery(StableTime / 3, 3);
        case FadeOut =>
          symbolOpacity := 0.0;
          symbolScale := 0.2;
      }
      var h := nextHandle;
      phaseTimers := phaseTimers[h := Duration(currentState)];
      nextHandle := h + 1;
      timer := Some(h);
    }

    method AdvanceState()
      modifies this
      ensures Model() == AnimationEngine.AdvanceState(old(Model()))
    {
      currentState := Next(currentState);
      if currentState == FadeIn {
        if currentIndex >= |AnimationEngine.Catalog| {
          currentIndex := 0;
        }
        MoveToNextSymbol();
      } else {
        AnimateSymbol();
      }
    }

    /** Queues `times` color changes, the `i`-th due `i * interval` after now. */
    method ChangeColorEvery(interval: int, times: nat)
      modifies this
      ensures Model() == AnimationEngine.ChangeColorEvery(old(Model()), interval, times)
    {
      for i := 0 to times
        invariant colorChanges == old(colorChanges) + ColorOffsets(interval, i)
        invariant Model() == old(Model()).(colorChanges := colorChanges)
      {
        assert ColorOffsets(interval, i + 1) == ColorOffsets(interval, i) + [i * interval];
        colorChanges := colorChanges + [i * interval];
      }
    }

    method ScheduleDisplayTimer()
      modifies this
      ensures Model() == AnimationEngine.ScheduleDisplayTimer(old(Model()))
    {
      if displayTimer.Some? {
        displayTimers := displayTimers - {displayTimer.value};
      }
      var h := nextHandle;
      displayTimers := displayTimers + {h};
      nextHandle := h + 1;
      displayTimer := Some(h);
    }

    /** The one-shot timer `h` fires; it advances the phase only while it is live. */
    method FirePhaseTimer(h: AnimationEngine.Handle)
      modifies this
      ensures Model() == AnimationEngine.FirePhaseTimer(old(Model()), h)
      ensures old(Valid()) ==> Valid()
      ensures old(Running()) ==> Running()
    {
      ghost var e := Model();
      if h in phaseTimers {
        phaseTimers := phaseTimers - {h};
        AdvanceState();
      }
      if AnimationEngine.Wf(e) {
        EngineInvariants.FirePhaseTimerWf(e, h);
      }
      if AnimationEngine.Running(e) {
        EngineInvariants.FirePhaseTimerRuns(e, h);
      }
    }

    /** The repeating timer `h` fires; while live it counts one tick, wrapping at a display cycle. */
    method Tick(h: AnimationEngine.Handle)
      modifies this
      ensures Model() == AnimationEngine.Tick(old(Model()), h)
      ensures old(Valid()) ==> Valid()
      ensures old(Running()) ==> Running()
    {
      ghost var e := Model();
      if h in displayTimers {
        timeElapsed := timeElapsed + TickInterval;
        if timeElapsed >= TotalDisplayTime {
          timeElapsed := 0;
        }
      }
      EngineInvariants.TickRuns(e, h);
    }

    /** The oldest queued color change runs with the channels it drew. */
    method FireColorChange(red: real, green: real, blue: real)
      requires 0.0 <= red <= 1.0 && 0.0 <= green <= 1.0 && 0.0 <= blue <= 1.0
      modifies this
      ensures Model() == AnimationEngine.FireColorChange(old(Model()), red, green, blue)
      ensures old(Valid()) ==> Valid()
      ensures old(Running()) ==> Running()
    {
      ghost var e := Model();
      if colorChanges != [] {
        colorChanges := colorChanges[1..];
        symbolColor := AnimationEngine.Rgb(red, green, blue);
      }
      EngineInvariants.FireColorChangeRuns(e, red, green, blue);
    }
  }
}
