# Symbol animation state machine

A model in Dafny of `SymbolsOO`, the observable object behind the
`testanimation` SwiftUI demo. The object shows six SF Symbols one after
another. Each symbol goes through three phases: a fade-in, a stable phase in
which its color changes three times, and a fade-out. Then the next symbol
comes, and after the sixth the first one returns. A second, repeating timer
counts the time elapsed within the ten-second display cycle.

The project is built from these modules:

- `Timing` (`timing.dfy`): the time constants. Every duration is an integer
  number of tenths of a second: fade-in 20, fade-out 20, display cycle 100,
  stable 60, ticker period 1.
- `Phases` (`phases.dfy`): `AnimationState` and its successor `next()`,
  together with the duration of each phase.
- `ColorSchedule` (`color_schedule.dfy`): the delays at which
  `changeColorEvery` queues its color changes.
- `AnimationEngine` (`engine.dfy`): the controller's state as one value,
  `EngineState`, and every method of `SymbolsOO` as a function on it. The
  part of the run loop the controller relies on is explicit state:
  - live one-shot timers, mapped to their intervals;
  - live repeating timers;
  - queued color changes;
  - a counter for fresh timer handles.

  `Timer.invalidate()` removes a handle from the live timers. A timer can fire
  only while its handle is live.
- `EngineInvariants` (`invariants.dfy`) proves two invariants about the
  engine:
  - `Wf` holds from creation on, after every event;
  - `Running` holds from the first `startAnimatingSymbols` on.

  `Running` adds three facts: a symbol is shown, exactly one timer of each
  kind is live, and `1 <= currentIndex <= 6`.
- `EngineProperties` (`properties.dfy`): properties of whole runs:
  - the phase sequence;
  - the order of the symbols and their period of six cycles;
  - the time a number of cycles takes;
  - the ticker's count.
- `Controller` (`controller.dfy`): the class `SymbolsOO` with the Swift
  object's fields. Its methods assign those fields step by step and call one
  another as the Swift methods do. Each method is proved to produce exactly
  the state the matching `AnimationEngine` function computes. The external
  events get one method each:
  - the phase-advance timer firing (`FirePhaseTimer`);
  - the display timer firing (`Tick`);
  - a queued color change running (`FireColorChange`).

  Each of these event methods also keeps `Wf` and `Running`.

## Model

| member | source | states |
|---|---|---|
| Timing.PhaseTimesFillDisplayTime | testanimation/ContentView.swift:11-14 | fade-in, stable and fade-out add up to the display cycle, and the stable phase is six seconds, divisible by three |
| Phases.Next | testanimation/ContentView.swift:23-32 | the successor is one step further in declaration order, wrapping from fade-out to fade-in |
| Phases.NextIsThreeCycle | testanimation/ContentView.swift:23-32 | `next()` moves every phase, also after two steps, and three steps return to the start |
| Phases.IterateOrdinal | testanimation/ContentView.swift:23-32 | `n` successive `next()` calls advance the phase by `n` modulo three |
| Phases.IterateWholeCycles | testanimation/ContentView.swift:23-32 | any whole number of three-step cycles returns every phase to itself |
| Phases.Duration | testanimation/ContentView.swift:101 | each phase's timer interval is positive |
| Phases.CycleFillsDisplayTime | testanimation/ContentView.swift:101 | the intervals of three consecutive phases, starting anywhere, add up to the display cycle |
| ColorSchedule.ColorOffsets | testanimation/ContentView.swift:118-128 | exactly `times` changes are queued, the `i`-th at delay `i * interval` |
| ColorSchedule.OffsetsAscending | testanimation/ContentView.swift:118-128 | with a positive interval the delays start at 0, strictly increase and stay below `times * interval` |
| ColorSchedule.StableSchedule | testanimation/ContentView.swift:92 | the stable phase queues changes at 0, 2 and 4 seconds, all before the phase ends |
| AnimationEngine.Position | testanimation/ContentView.swift:71 | `i % symbols.count` is a valid catalog index, and is `i` itself when `i` is already one |
| AnimationEngine.EnterFadeIn | testanimation/ContentView.swift:71-77 | shows `symbols[old index % count]`, increments the index by one, and resets the phase to fade-in, opacity 0, scale 0.2, black and elapsed time 0 |
| AnimationEngine.ChangeColorEvery | testanimation/ContentView.swift:118-128 | the queued changes grow by exactly `times` delays `i * interval` behind those already pending; nothing else changes |
| AnimationEngine.AnimateSymbol | testanimation/ContentView.swift:81-104 | the previous timer is invalidated and the only live phase timer is a new one with the phase's duration; fade-in targets 1/1 and fade-out 0/0.2, each without queuing colors; stable leaves opacity and scale alone and queues the three color changes; symbol, index, phase, color, time and display timer are unchanged |
| AnimationEngine.MoveToNextSymbol | testanimation/ContentView.swift:70-79 | shows `symbols[old index % count]`, increments the index by one, and starts the fade-in from black with elapsed time 0, targeting opacity and scale 1, with one new fade-in timer; display timer and queued colors are unchanged |
| AnimationEngine.AdvanceState | testanimation/ContentView.swift:106-116 | the phase becomes `next(old phase)`; outside fade-in, symbol, index, time and color are kept; on entering fade-in, the index is reset to 0 if it is at least the catalog size, that symbol is then shown and the index becomes one past it; one new phase timer with the new phase's duration is live |
| AnimationEngine.ScheduleDisplayTimer | testanimation/ContentView.swift:130-139 | the old display timer is invalidated and exactly one new repeating timer is live; nothing else changes |
| AnimationEngine.Start | testanimation/ContentView.swift:65-68 | shows the symbol at the current index, enters fade-in, and leaves exactly one live timer of each kind |
| AnimationEngine.FirePhaseTimer | testanimation/ContentView.swift:101-103 | an invalidated timer changes nothing; a live one advances the phase and leaves exactly one new phase timer live |
| AnimationEngine.Tick | testanimation/ContentView.swift:132-138 | an invalidated timer changes nothing; a live one adds one tick modulo the display cycle; only `timeElapsed` changes |
| AnimationEngine.FireColorChange | testanimation/ContentView.swift:120-126 | the oldest queued change sets a color with channels in [0, 1] and leaves the queue; with none queued nothing happens; only the color and the queue change |
| EngineInvariants.InitialWf | testanimation/ContentView.swift:44-62 | the initial values satisfy the invariant and nothing runs yet |
| EngineInvariants.QueuedChangesInsideStable | testanimation/ContentView.swift:92 | after queuing a stable phase's changes, every pending delay is still inside a stable phase |
| EngineInvariants.AnimateSymbolWf | testanimation/ContentView.swift:81-104 | animating from a consistent state restores the invariant, including the timer's interval matching the phase |
| EngineInvariants.MoveToNextSymbolWf | testanimation/ContentView.swift:70-79 | moving to the next symbol restores the invariant |
| EngineInvariants.AdvanceStateWf | testanimation/ContentView.swift:106-116 | advancing the phase keeps the invariant |
| EngineInvariants.ScheduleDisplayTimerWf | testanimation/ContentView.swift:130-139 | rescheduling the ticker keeps the invariant |
| EngineInvariants.StartWf | testanimation/ContentView.swift:65-68 | starting, also a second time, keeps the invariant |
| EngineInvariants.StartRuns | testanimation/ContentView.swift:65-68 | starting the fresh controller shows the first symbol in fade-in and establishes `Running` |
| EngineInvariants.FirePhaseTimerWf | testanimation/ContentView.swift:101-103 | a phase timer firing, live or stale, keeps the invariant |
| EngineInvariants.FirePhaseTimerRuns | testanimation/ContentView.swift:101-116 | a phase timer firing keeps `Running`, so `1 <= currentIndex <= 6` and exactly one timer of each kind is live |
| EngineInvariants.TickRuns | testanimation/ContentView.swift:132-138 | a tick keeps the invariant and `Running`, so `0 <= timeElapsed < totalDisplayTime` |
| EngineInvariants.FireColorChangeRuns | testanimation/ContentView.swift:120-126 | a color change keeps the invariant and `Running` |
| EngineProperties.ShownSymbol | testanimation/ContentView.swift:71-72 | while running, the shown symbol is the catalog entry just before the index |
| EngineProperties.OneFiring | testanimation/ContentView.swift:106-116 | one firing advances the phase and keeps running, and the shown symbol moves to the next catalog entry exactly when the new phase is fade-in |
| EngineProperties.PhaseSequence | testanimation/ContentView.swift:101-116 | after `n` firings the controller still runs and its phase is the `n`-th successor of the starting phase |
| EngineProperties.OneCycle | testanimation/ContentView.swift:81-116 | three firings return to the same phase and show the next symbol, cyclically; their intervals add up to one display cycle |
| EngineProperties.SymbolsCycle | testanimation/ContentView.swift:106-116 | after `k` cycles the phase is the same, the symbol shown is `k` entries further on modulo six, and `k` display cycles of time have passed |
| EngineProperties.SymbolsRepeatAfterSixCycles | testanimation/ContentView.swift:106-112 | the symbol at the start of cycle `k + 6` is the one at the start of cycle `k` |
| EngineProperties.CyclesFromFirstSymbol | testanimation/ContentView.swift:106-116 | from the fade-in of the first symbol, cycle `k` begins the fade-in of symbol `k` modulo six after exactly `k` display cycles |
| EngineProperties.Session | testanimation/ContentView.swift:65-116 | after `startAnimatingSymbols` on a fresh controller, cycle `k` begins the fade-in of symbol `k` modulo six, after `k` display cycles |
| EngineProperties.TickCount | testanimation/ContentView.swift:132-138 | while running, `n` ticks advance `timeElapsed` by `n` modulo the display cycle |
| EngineProperties.RestartWhileRunning | testanimation/ContentView.swift:65-71 | a second start after the sixth symbol keeps exactly one timer of each kind and shows the first symbol through the modulo, but leaves the index at 7, outside `Running` |
| Controller.SymbolsOO.constructor | testanimation/ContentView.swift:44-62 | the fields start at the property initializers, which satisfy the invariant |
| Controller.SymbolsOO.StartAnimatingSymbols | testanimation/ContentView.swift:65-68 | the new fields are `Start` of the old ones; the invariant is kept, and `Running` holds after a first start |
| Controller.SymbolsOO.MoveToNextSymbol | testanimation/ContentView.swift:70-79 | the new fields are `MoveToNextSymbol` of the old ones |
| Controller.SymbolsOO.AnimateSymbol | testanimation/ContentView.swift:81-104 | the new fields are `AnimateSymbol` of the old ones |
| Controller.SymbolsOO.AdvanceState | testanimation/ContentView.swift:106-116 | the new fields are `AdvanceState` of the old ones |
| Controller.SymbolsOO.ChangeColorEvery | testanimation/ContentView.swift:118-128 | the loop queues the engine's `ColorOffsets` one offset per iteration, and nothing else changes |
| Controller.SymbolsOO.ScheduleDisplayTimer | testanimation/ContentView.swift:130-139 | the new fields are `ScheduleDisplayTimer` of the old ones |
| Controller.SymbolsOO.FirePhaseTimer | testanimation/ContentView.swift:101-103 | the new fields are `FirePhaseTimer` of the old ones; the invariant and `Running` are kept |
| Controller.SymbolsOO.Tick | testanimation/ContentView.swift:132-138 | the new fields are `Tick` of the old ones; the invariant and `Running` are kept |
| Controller.SymbolsOO.FireColorChange | testanimation/ContentView.swift:120-126 | the new fields are `FireColorChange` of the old ones; the invariant and `Running` are kept |

## Left out

- The SwiftUI view `SymbolsView`, `#Preview` and all layout and text formatting (lines 143-186): these are presentation only.
- The `withAnimation` easing curves and the intermediate values they render: the model records only the opacity and scale targets each phase assigns.
- `Timer.scheduledTimer`, `DispatchQueue.main.asyncAfter` and the run loop: each timer firing is an explicit event method. There is no clock, so the model does not fix the order in which a queued color change and a phase timer fire. A color change can therefore run in any phase. Its delay is recorded but not enforced.
- `[weak self]`: the controller is never released in the model, so the `guard let self` and `self?` paths that do nothing are not modelled.
- `Double.random(in: 0...1)`: the three random channels are parameters of `FireColorChange`, constrained to [0, 1].
- `UUID` identity of `SymbolDO` (line 37): symbols are compared by name and description only.
- `AnimationEngine.Tick` counts in integer tenths. It does not model the floating-point drift of adding 0.1 repeatedly (line 134). In the model the count wraps after exactly 100 ticks; in floating point it may take 101. The exact wrap count in `EngineProperties.TickCount` is a property of the integer model.
- `AnimationEngine.ChangeColorEvery` takes `times` as a natural number. A negative count makes Swift's `0..<times` trap. That case never occurs, because the only caller passes 3.
- `EngineProperties.TimeOfFires` measures time as the sum of the intervals of the phase timers that fire, because the model has no clock of its own.
- A second `startAnimatingSymbols` call while the object is running is allowed. The invariant `Wf` still holds afterwards. The index bound of `Running` can be exceeded, because the index can reach 7. The modulo at line 71 still selects a valid symbol (`EngineProperties.RestartWhileRunning`).
