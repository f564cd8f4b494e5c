/**
 * The symbol-cycling state machine as pure functions over a value that holds
 * every field of the controller, together with the part of the run loop the
 * controller touches: which timers are still scheduled and which color
 * changes are still queued.
 *
 * Timers are identified by handles.  Invalidating a timer removes its handle
 * from the live set; a timer can fire only while its handle is live.
 */
module AnimationEngine {

  import opened Wrappers
  import opened Timing
  import opened Phases
  import opened ColorSchedule

  type Handle = nat

  /** An entry of the symbol catalog: a system image name and the text shown under it. */
  datatype Symbol = Symbol(name: string, description: string)

  /** The six symbols, in display order. */
  const Catalog: seq<Symbol> := [
    Symbol("person.fill", "Person"),
    Symbol("airplane", "Airplane"),
    Symbol("house.fill", "House"),
    Symbol("car.fill", "Car"),
    Symbol("flame.fill", "Flame"),
    Symbol("pencil", "Pencil")
  ]

  /** The symbol's color: the initial black, or a color with random red, green and blue channels. */
  datatype Color = Black | Rgb(red: real, green: real, blue: real)

  predicate ValidColor(c: Color)
  {
    c.Rgb? ==> 0.0 <= c.red <= 1.0 && 0.0 <= c.green <= 1.0 && 0.0 <= c.blue <= 1.0
  }

  /**
   * The controller's fields (the published ones, `currentIndex`, and the two
   * timer references) and the run loop's view: `phaseTimers` maps each live
   * one-shot timer to its interval, `displayTimers` holds the live repeating
   * ones, `colorChanges` the delays of the color changes still queued, and
   * `nextHandle` the handle the next scheduled timer receives.
   */
  datatype EngineState = EngineState(
    currentSymbol: Option<Symbol>,
    symbolOpacity: real,
    symbolScale: real,
    symbolColor: Color,
    currentState: Phase,
    timeElapsed: nat,
    currentIndex: nat,
    timer: Option<Handle>,
    displayTimer: Option<Handle>,
    phaseTimers: map<Handle, nat>,
    displayTimers: set<Handle>,
    colorChanges: seq<int>,
    nextHandle: Handle)

  /** The controller as its property initializers leave it. */
  const Initial: EngineState :=
    EngineState(None, 0.0, 0.2, Black, FadeIn, 0, 0, None, None, map[], {}, [], 0)

  /** The catalog position an index stands for: the index modulo the catalog size. */
  function Position(i: int): (p: nat)
    ensures p < |Catalog|
    ensures 0 <= i < |Catalog| ==> p == i
  {
    i % |Catalog|
  }

  /** The catalog entry for an index, `symbols[i % symbols.count]`. */
  function SymbolAt(i: int): Symbol
  {
    Catalog[Position(i)]
  }

  // ---------------------------------------------------------------------
  // Invariants

  /**
   * Of each kind of timer at most the one the controller references is live,
   * and every handle handed out so far is below `nextHandle`.
   */
  predicate TimersShape(e: EngineState)
  {
    && (e.timer.None? ==> e.phaseTimers == map[])
    && (e.timer.Some? ==> e.timer.value < e.nextHandle && e.phaseTimers.Keys <= {e.timer.value})
    && (e.displayTimer.None? ==> e.displayTimers == {})
    && (e.displayTimer.Some? ==> e.displayTimer.value < e.nextHandle && e.displayTimers <= {e.displayTimer.value})
  }

  /** Opacity and scale hold the end values the current phase animates towards. */
  predicate AtTargets(e: EngineState)
  {
    if e.currentState == FadeOut then e.symbolOpacity == 0.0 && e.symbolScale == 0.2
    else e.symbolOpacity == 1.0 && e.symbolScale == 1.0
  }

  /** Every queued color change is due before a stable phase, started when it was queued, ends. */
  predicate InsideStable(offsets: seq<int>)
  {
    forall k :: 0 <= k < |offsets| ==> 0 <= offsets[k] < StableTime
  }

  /** What holds of the controller from its creation on, whatever events happen. */
  predicate Wf(e: EngineState)
  {
    && TimersShape(e)
    && (e.timer.Some? && e.timer.value in e.phaseTimers ==> e.phaseTimers[e.timer.value] == Duration(e.currentState))
    && e.timeElapsed < TotalDisplayTime
    && (e.currentSymbol.Some? ==> 1 <= e.currentIndex && e.currentSymbol.value == SymbolAt(e.currentIndex - 1))
    && ValidColor(e.symbolColor)
    && InsideStable(e.colorChanges)
    && (e.timer.Some? ==> AtTargets(e))
  }

  /**
   * What holds once the cycle has been started once: a symbol is shown, exactly
   * one phase-advance timer and one display timer are live, and the index
   * stays within the catalog.
   */
  predicate Running(e: EngineState)
  {
    && Wf(e)
    && e.currentSymbol.Some?
    && e.timer.Some? && e.phaseTimers.Keys == {e.timer.value}
    && e.displayTimer.Some? && e.displayTimers == {e.displayTimer.value}
    && 1 <= e.currentIndex <= |Catalog|
  }

  // ---------------------------------------------------------------------
  // Operations

  /** The assignments that begin a new symbol: the pose every fade-in starts from. */
  function EnterFadeIn(e: EngineState): (r: EngineState)
    ensures r.currentState == FadeIn && r.symbolOpacity == 0.0 && r.symbolScale == 0.2
    ensures r.symbolColor == Black && r.timeElapsed == 0
    ensures r.currentIndex == e.currentIndex + 1 && r.currentSymbol == Some(SymbolAt(e.currentIndex))
  {
    e.(currentSymbol := Some(SymbolAt(e.currentIndex)),
       currentIndex := e.currentIndex + 1,
       currentState := FadeIn,
       symbolOpacity := 0.0,
       symbolScale := 0.2,
       symbolColor := Black,
       timeElapsed := 0)
  }

  /** The color changes of a stable phase are queued behind those already pending. */
  function ChangeColorEvery(e: EngineState, interval: int, times: nat): (r: EngineState)
    ensures |r.colorChanges| == |e.colorChanges| + times
    ensures r.colorChanges[..|e.colorChanges|] == e.colorChanges
    ensures forall i :: 0 <= i < times ==> r.colorChanges[|e.colorChanges| + i] == i * interval
    ensures r == e.(colorChanges := r.colorChanges)
  {
    e.(colorChanges := e.colorChanges + ColorOffsets(interval, times))
  }

  /**
   * Starts the current phase's animation and replaces the pending
   * phase-advance timer by a fresh one whose interval is the phase's duration.
   */
  function AnimateSymbol(e: EngineState): (r: EngineState)
    ensures r.currentSymbol == e.currentSymbol && r.currentIndex == e.currentIndex
    ensures r.currentState == e.currentState && r.symbolColor == e.symbolColor && r.timeElapsed == e.timeElapsed
    ensures r.displayTimer == e.displayTimer && r.displayTimers == e.displayTimers
    ensures r.timer == Some(e.nextHandle) && r.nextHandle == e.nextHandle + 1
    ensures TimersShape(e) ==> TimersShape(r) && r.phaseTimers == map[e.nextHandle := Duration(e.currentState)]
    ensures TimersShape(e) && e.timer.Some? ==> e.timer.value !in r.phaseTimers
    ensures e.currentState != Stable ==> AtTargets(r) && r.colorChanges == e.colorChanges
    ensures e.currentState == Stable ==>
              r.symbolOpacity == e.symbolOpacity && r.symbolScale == e.symbolScale &&
              r.colorChanges == e.colorChanges + ColorOffsets(StableTime / 3, 3)
  {
    var live := if e.timer.Some? then e.phaseTimers - {e.timer.value} else e.phaseTimers;
    var animated :=
      match e.currentState
      case FadeIn => e.(symbolOpacity := 1.0, symbolScale := 1.0)
      case Stable => ChangeColorEvery(e, StableTime / 3, 3)
      case FadeOut => e.(symbolOpacity := 0.0, symbolScale := 0.2);
    var h := e.nextHandle;
    animated.(phaseTimers := live[h := Duration(e.currentState)], timer := Some(h), nextHandle := h + 1)
  }

  /**
   * Shows the symbol at the current index (modulo the catalog size), advances
   * the index by one and fades the symbol in from the start pose.
   */
  function MoveToNextSymbol(e: EngineState): (r: EngineState)
    ensures r.currentIndex == e.currentIndex + 1 && r.currentSymbol == Some(SymbolAt(e.currentIndex))
    ensures r.currentState == FadeIn && r.symbolColor == Black && r.timeElapsed == 0
    ensures r.symbolOpacity == 1.0 && r.symbolScale == 1.0
    ensures r.timer == Some(e.nextHandle) && r.nextHandle == e.nextHandle + 1
    ensures TimersShape(e) ==> TimersShape(r) && r.phaseTimers == map[e.nextHandle := FadeInTime]
    ensures r.displayTimer == e.displayTimer && r.displayTimers == e.displayTimers
    ensures r.colorChanges == e.colorChanges
  {
    AnimateSymbol(EnterFadeIn(e))
  }

  /**
   * Moves to the successor phase.  Entering a fade-in starts over at the first
   * symbol once the index has reached the catalog size, then moves on to the
   * next symbol; any other phase keeps the symbol and only animates.
   */
  function AdvanceState(e: EngineState): (r: EngineState)
    ensures r.currentState == Next(e.currentState)
    ensures r.timer == Some(e.nextHandle) && r.nextHandle == e.nextHandle + 1
    ensures TimersShape(e) ==> TimersShape(r) && r.phaseTimers == map[e.nextHandle := Duration(r.currentState)]
    ensures r.displayTimer == e.displayTimer && r.displayTimers == e.displayTimers
    ensures Next(e.currentState) != FadeIn ==>
              r.currentSymbol == e.currentSymbol && r.currentIndex == e.currentIndex &&
              r.timeElapsed == e.timeElapsed && r.symbolColor == e.symbolColor
    ensures Next(e.currentState) == FadeIn ==>
              var shown := if e.currentIndex >= |Catalog| then 0 else e.currentIndex;
              r.currentSymbol == Some(Catalog[shown]) && r.currentIndex == shown + 1 &&
              r.timeElapsed == 0 && r.symbolColor == Black && r.colorChanges == e.colorChanges
  {
    var moved := e.(currentState := Next(e.currentState));
    if moved.currentState == FadeIn then
      MoveToNextSymbol(moved.(currentIndex := if moved.currentIndex >= |Catalog| then 0 else moved.currentIndex))
    else
      AnimateSymbol(moved)
  }

  /** Replaces the repeating display timer by a fresh one. */
  function ScheduleDisplayTimer(e: EngineState): (r: EngineState)
    ensures r.displayTimer == Some(e.nextHandle) && r.nextHandle == e.nextHandle + 1
    ensures TimersShape(e) ==> TimersShape(r) && r.displayTimers == {e.nextHandle}
    ensures TimersShape(e) && e.displayTimer.Some? ==> e.displayTimer.value !in r.displayTimers
    ensures r == e.(displayTimer := r.displayTimer, displayTimers := r.displayTimers, nextHandle := r.nextHandle)
  {
    var live := if e.displayTimer.Some? then e.displayTimers - {e.displayTimer.value} else e.displayTimers;
    var h := e.nextHandle;
    e.(displayTimers := live + {h}, displayTimer := Some(h), nextHandle := h + 1)
  }

  /** Begins the session: shows the symbol at the current index and starts the display ticker. */
  function Start(e: EngineState): (r: EngineState)
    ensures r.currentIndex == e.currentIndex + 1
    ensures r.currentSymbol == Some(SymbolAt(e.currentIndex)) && r.currentState == FadeIn
    ensures TimersShape(e) ==>
              TimersShape(r) && r.phaseTimers == map[e.nextHandle := FadeInTime] && r.displayTimers == {e.nextHandle + 1}
  {
    ScheduleDisplayTimer(MoveToNextSymbol(e))
  }

  /**
   * The one-shot timer `h` fires.  A live timer is used up and advances the
   * phase; an invalidated one has no effect.
   */
  function FirePhaseTimer(e: EngineState, h: Handle): (r: EngineState)
    ensures h !in e.phaseTimers ==> r == e
    ensures h in e.phaseTimers ==> r.currentState == Next(e.currentState) && r.timer == Some(e.nextHandle)
    ensures TimersShape(e) ==> TimersShape(r)
    ensures TimersShape(e) && h in e.phaseTimers ==> r.phaseTimers.Keys == {e.nextHandle}
  {
    if h in e.phaseTimers then AdvanceState(e.(phaseTimers := e.phaseTimers - {h})) else e
  }

  /**
   * The repeating timer `h` fires: a live one moves the elapsed time on by one
   * tick, wrapping to zero on reaching a whole display cycle.
   */
  function Tick(e: EngineState, h: Handle): (r: EngineState)
    ensures h !in e.displayTimers ==> r == e
    ensures h in e.displayTimers && e.timeElapsed < TotalDisplayTime ==>
              r.timeElapsed == (e.timeElapsed + TickInterval) % TotalDisplayTime
    ensures r.timeElapsed < TotalDisplayTime || r == e
    ensures r == e.(timeElapsed := r.timeElapsed)
  {
    if h in e.displayTimers then
      var t := e.timeElapsed + TickInterval;
      e.(timeElapsed := if t >= TotalDisplayTime then 0 else t)
    else
      e
  }

  /**
   * The oldest queued color change runs, with the three random channels it
   * drew; with nothing queued nothing happens.
   */
  function FireColorChange(e: EngineState, red: real, green: real, blue: real): (r: EngineState)
    requires 0.0 <= red <= 1.0 && 0.0 <= green <= 1.0 && 0.0 <= blue <= 1.0
    ensures e.colorChanges == [] ==> r == e
    ensures e.colorChanges != [] ==>
              r.symbolColor == Rgb(red, green, blue) && ValidColor(r.symbolColor) && r.colorChanges == e.colorChanges[1..]
    ensures r == e.(symbolColor := r.symbolColor, colorChanges := r.colorChanges)
  {
    if e.colorChanges == [] then e
    else e.(symbolColor := Rgb(red, green, blue), colorChanges := e.colorChanges[1..])
  }
}
