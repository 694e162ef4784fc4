/**
  The n-back session engine as values: the state the `App` component keeps,
  one function per transition, the events that drive it (a timer firing, a
  click, a change of level), each followed by the finish check that runs on
  the re-render, and the properties of the transitions and of whole runs.

  The browser's interval timers are modelled by the set of armed interval
  ids and the next id the host hands out; ids are positive, so the initial
  `intervalId` of 0 names no timer.
 */
module Engine {
  import opened Stimuli

  /** Number of ticks in a session (`maxTime`). */
  const MAX_TIME: nat := 30

  /** Bounds of the level slider. */
  const MIN_LEVEL: int := 1
  const MAX_LEVEL: int := 9

  datatype Phase = Before | Running | After

  datatype AppState = AppState(
    numbers: seq<string>,   // stimulus history, newest first
    step: int,
    score: int,
    isCorrect: bool,
    isWrong: bool,
    level: int,
    intervalId: nat,        // id of the interval armed by the latest start
    state: Phase,
    timers: set<nat>,       // ids of the intervals still armed
    nextTimer: nat          // the id the host will hand out next
  )

  /** The state when the component mounts, `seed` being the first random letter. */
  function Initial(seed: string): AppState {
    AppState([seed], 0, 0, false, false, 1, 0, Before, {}, 1)
  }

  /** What holds of every reachable state. */
  predicate Inv(st: AppState) {
    && 1 <= |st.numbers| <= HISTORY_CAP
    && AllStimuli(st.numbers)
    && MIN_LEVEL <= st.level <= MAX_LEVEL
    && st.step >= 0
    && 0 < st.nextTimer
    && st.intervalId < st.nextTimer
    && (forall t :: t in st.timers ==> 0 < t < st.nextTimer)
    && (st.state == Running ==> st.intervalId in st.timers)
    && (st.state == After ==> st.step >= MAX_TIME)
  }

  /** `update`: one emission. */
  function Update(st: AppState, s: string): AppState {
    st.(numbers := Emit(st.numbers, s), step := st.step + 1, isCorrect := false, isWrong := false)
  }

  /** `start`: one emission, then a freshly armed interval, and the run begins. */
  function Start(st: AppState, s: string): AppState {
    var u := Update(st, s);
    u.(timers := u.timers + {u.nextTimer}, intervalId := u.nextTimer,
       nextTimer := u.nextTimer + 1, state := Running)
  }

  /** `guessNumberHandler`: scores the guess; it has no phase guard. */
  function Guess(st: AppState): AppState {
    if CorrectGuess(st.numbers, st.level) then
      st.(isCorrect := true, score := st.score + 1)
    else
      st.(isWrong := true, score := st.score - 1)
  }

  /** `setLevelHandler`: it neither clears the interval nor touches the history. */
  function SetLevel(st: AppState, n: int): AppState {
    st.(level := n, state := Before, step := 0, score := 0)
  }

  /** The check at the top of every render: a run that has reached `maxTime` ends. */
  function CheckFinish(st: AppState): AppState {
    if st.state == Running && st.step >= MAX_TIME then
      st.(timers := st.timers - {st.intervalId}, state := After)
    else
      st
  }

  /** The click dispatch of the big circle. */
  function Click(st: AppState, s: string): AppState {
    if st.state == Before then Start(st, s) else Guess(st)
  }

  /**
    What can happen to a mounted component. `TimerFired` and `Clicked` carry
    the letter `randomNumber` would draw (a click only uses it when it starts
    a run); `LevelChanged` carries the slider's value.
   */
  datatype Event = TimerFired(stimulus: string) | Clicked(stimulus: string) | LevelChanged(n: int)

  /** An event can happen: a timer fires only while one is armed, letters come from the alphabet. */
  predicate Enabled(st: AppState, e: Event) {
    match e
    case TimerFired(s) => st.timers != {} && IsStimulus(s)
    case Clicked(s) => IsStimulus(s)
    case LevelChanged(n) => MIN_LEVEL <= n <= MAX_LEVEL
  }

  /** An event's handler followed by the render it causes. */
  function Step(st: AppState, e: Event): AppState {
    CheckFinish(
      match e
      case TimerFired(s) => Update(st, s)
      case Clicked(s) => Click(st, s)
      case LevelChanged(n) => SetLevel(st, n))
  }

  predicate Feasible(st: AppState, es: seq<Event>)
    decreases |es|
  {
    es == [] || (Enabled(st, es[0]) && Feasible(Step(st, es[0]), es[1..]))
  }

  function Run(st: AppState, es: seq<Event>): AppState
    requires Feasible(st, es)
    decreases |es|
  {
    if es == [] then st else Run(Step(st, es[0]), es[1..])
  }

  /** One timer firing per letter of `ss`. */
  function Ticks(ss: seq<string>): (es: seq<Event>)
    ensures |es| == |ss|
    ensures forall i :: 0 <= i < |ss| ==> es[i] == TimerFired(ss[i])
  {
    if ss == [] then [] else [TimerFired(ss[0])] + Ticks(ss[1..])
  }

  // ---------------------------------------------------------------------------
  // The transitions one by one

  lemma InitialInv(seed: string)
    requires IsStimulus(seed)
    ensures Inv(Initial(seed))
    ensures Initial(seed).state == Before && Initial(seed).step == 0 && Initial(seed).score == 0
  {
  }

  /**
    `update` puts the new letter first, keeps the previous entries in order
    behind it, cuts the history to the cap, counts one step and clears both
    flags; score, level and phase stay.
   */
  lemma UpdateEffect(st: AppState, s: string)
    ensures var r := Update(st, s);
      && r.numbers[0] == s
      && |r.numbers| == Min(|st.numbers| + 1, HISTORY_CAP)
      && (forall i :: 0 < i < |r.numbers| ==> r.numbers[i] == st.numbers[i - 1])
      && r.step == st.step + 1 && !r.isCorrect && !r.isWrong
      && r.score == st.score && r.level == st.level && r.state == st.state
      && r.timers == st.timers && r.intervalId == st.intervalId
  {
  }

  /**
    `start` performs exactly one emission (the state of `update`, flags
    cleared), then arms one fresh interval, records it as the latest and
    begins the run; nothing else changes.
   */
  lemma StartEffect(st: AppState, s: string)
    requires Inv(st)
    ensures var r := Start(st, s);
      && r.state == Running && r.step == st.step + 1
      && r.numbers == Update(st, s).numbers
      && r.score == st.score && r.level == st.level
      && !r.isCorrect && !r.isWrong
      && r.intervalId == st.nextTimer && r.nextTimer == st.nextTimer + 1
      && r.intervalId !in st.timers && r.timers == st.timers + {r.intervalId}
      && r.(timers := st.timers, intervalId := st.intervalId, nextTimer := st.nextTimer, state := st.state)
         == Update(st, s)
  {
  }

  /**
    A correct guess scores +1 and raises `isCorrect`, any other guess scores
    -1 (without floor) and raises `isWrong`; nothing else changes.
   */
  lemma GuessEffect(st: AppState)
    ensures var r := Guess(st);
      && (CorrectGuess(st.numbers, st.level) ==> r.score == st.score + 1 && r.isCorrect && r.isWrong == st.isWrong)
      && (!CorrectGuess(st.numbers, st.level) ==> r.score == st.score - 1 && r.isWrong && r.isCorrect == st.isCorrect)
      && r.numbers == st.numbers && r.step == st.step && r.level == st.level && r.state == st.state
      && r.timers == st.timers && r.intervalId == st.intervalId
      && r.(score := st.score, isCorrect := st.isCorrect, isWrong := st.isWrong) == st
  {
  }

  /** With a history of at least one letter, a guess is correct iff `level` is inside it and matches. */
  lemma GuessNeedsDepth(st: AppState)
    requires Inv(st)
    ensures Guess(st).score == st.score + 1 <==>
      st.level < |st.numbers| && st.numbers[0] == st.numbers[st.level]
    ensures Guess(st).score == st.score - 1 <==>
      !(st.level < |st.numbers| && st.numbers[0] == st.numbers[st.level])
  {
  }

  /** `setLevelHandler` resets the run but keeps the history and every armed interval. */
  lemma SetLevelEffect(st: AppState, n: int)
    ensures var r := SetLevel(st, n);
      && r.level == n && r.state == Before && r.step == 0 && r.score == 0
      && r.numbers == st.numbers && r.timers == st.timers && r.intervalId == st.intervalId
      && r.isCorrect == st.isCorrect && r.isWrong == st.isWrong
  {
  }

  /** Changing the level twice to the same value is changing it once. */
  lemma SetLevelIdempotent(st: AppState, n: int)
    ensures SetLevel(SetLevel(st, n), n) == SetLevel(st, n)
  {
  }

  /**
    The finish check ends a run exactly when it has reached `maxTime`, clearing
    the latest interval, and changes nothing else; it is idempotent.
   */
  lemma CheckFinishEffect(st: AppState)
    ensures var r := CheckFinish(st);
      && (r.state == After && st.state != After <==> st.state == Running && st.step >= MAX_TIME)
      && (st.state == Running && st.step >= MAX_TIME ==> r.timers == st.timers - {st.intervalId})
      && r.(state := st.state, timers := st.timers) == st
      && CheckFinish(r) == r
  {
  }

  /** A click starts a run in BEFORE and is a guess in any other phase. */
  lemma ClickDispatch(st: AppState, s: string)
    ensures st.state == Before ==> Click(st, s) == Start(st, s)
    ensures st.state != Before ==> Click(st, s) == Guess(st)
  {
  }

  lemma StepKeepsInv(st: AppState, e: Event)
    requires Inv(st) && Enabled(st, e)
    ensures Inv(Step(st, e))
  {
    match e
    case TimerFired(s) => EmitKeepsStimuli(st.numbers, s);
    case Clicked(s) => EmitKeepsStimuli(st.numbers, s);
    case LevelChanged(n) =>
  }

  /** Every state reachable from a valid one is valid. */
  lemma {:induction false} RunKeepsInv(st: AppState, es: seq<Event>)
    requires Inv(st) && Feasible(st, es)
    ensures Inv(Run(st, es))
    decreases |es|
  {
    if es != [] {
      StepKeepsInv(st, es[0]);
      RunKeepsInv(Step(st, es[0]), es[1..]);
    }
  }

  // ---------------------------------------------------------------------------
  // The lifecycle

  predicate NoLevelChange(es: seq<Event>) {
    forall i :: 0 <= i < |es| ==> !es[i].LevelChanged?
  }

  /** Only a change of level leaves AFTER: timer firings and clicks keep the phase. */
  lemma {:induction false} AfterIsAbsorbing(st: AppState, es: seq<Event>)
    requires st.state == After && Feasible(st, es) && NoLevelChange(es)
    ensures Run(st, es).state == After
    decreases |es|
  {
    if es != [] {
      assert Step(st, es[0]).state == After;
      AfterIsAbsorbing(Step(st, es[0]), es[1..]);
    }
  }

  /**
    The lifecycle as the game intends it: no interval armed outside a run,
    exactly the latest one armed during it, step 0 and score 0 before a run,
    and a finished run stopped at exactly `maxTime`.
   */
  predicate Clean(st: AppState) {
    && Inv(st)
    && (st.state == Before ==> st.timers == {} && st.step == 0 && st.score == 0)
    && (st.state == Running ==> st.timers == {st.intervalId} && 1 <= st.step < MAX_TIME)
    && (st.state == After ==> st.timers == {} && st.step == MAX_TIME)
  }

  /** The one event that breaks the intended lifecycle: a change of level during a run. */
  predicate Leaks(st: AppState, e: Event) {
    st.state == Running && e.LevelChanged?
  }

  predicate LeakFree(st: AppState, es: seq<Event>)
    decreases |es|
  {
    es == [] || (!Leaks(st, es[0]) && LeakFree(Step(st, es[0]), es[1..]))
  }

  lemma InitialClean(seed: string)
    requires IsStimulus(seed)
    ensures Clean(Initial(seed))
  {
  }

  lemma StepKeepsClean(st: AppState, e: Event)
    requires Clean(st) && Enabled(st, e) && !Leaks(st, e)
    ensures Clean(Step(st, e))
  {
    StepKeepsInv(st, e);
  }

  /** Every run without a mid-run level change keeps the intended lifecycle. */
  lemma {:induction false} RunKeepsClean(st: AppState, es: seq<Event>)
    requires Clean(st) && Feasible(st, es) && LeakFree(st, es)
    ensures Clean(Run(st, es))
    decreases |es|
  {
    if es != [] {
      StepKeepsClean(st, es[0]);
      RunKeepsClean(Step(st, es[0]), es[1..]);
    }
  }

  /** A finished clean session has no timer left, so no further tick can happen. */
  lemma CleanAfterIsStopped(st: AppState, s: string)
    requires Clean(st) && st.state == After
    ensures st.step == MAX_TIME && !Enabled(st, TimerFired(s))
  {
  }

  /**
    During a clean run the remaining timer firings end it at exactly
    `maxTime` with no interval left, and the history is the window of
    everything shown.
   */
  lemma {:induction false} TicksFinish(st: AppState, ss: seq<string>)
    requires Clean(st) && st.state == Running
    requires |ss| == MAX_TIME - st.step && AllStimuli(ss)
    ensures Feasible(st, Ticks(ss))
    ensures var r := Run(st, Ticks(ss));
      r.state == After && r.step == MAX_TIME && r.timers == {}
      && r.score == st.score && r.numbers == EmitAll(st.numbers, ss)
    decreases |ss|
  {
    var es := Ticks(ss);
    assert es[0] == TimerFired(ss[0]);
    assert Enabled(st, es[0]);
    var next := Step(st, es[0]);
    StepKeepsClean(st, es[0]);
    assert es[1..] == Ticks(ss[1..]);
    assert next.numbers == Emit(st.numbers, ss[0]);
    if |ss| == 1 {
      assert ss == [ss[0]] && ss[1..] == [];
      assert EmitAll(st.numbers, ss) == Emit(EmitAll(st.numbers, []), ss[0]);
    } else {
      assert next.state == Running;
      TicksFinish(next, ss[1..]);
      EmitAllCons(st.numbers, ss[0], ss[1..]);
      assert [ss[0]] + ss[1..] == ss;
    }
  }

  /**
    A whole session from mount: a click starts the run and the timer fires
    until the run ends at exactly `maxTime`, with score 0 and the history the
    window of the seed and every letter shown.
   */
  lemma WholeSession(seed: string, first: string, ss: seq<string>)
    requires IsStimulus(seed) && IsStimulus(first) && AllStimuli(ss)
    requires |ss| == MAX_TIME - 1
    ensures Feasible(Initial(seed), [Clicked(first)] + Ticks(ss))
    ensures var r := Run(Initial(seed), [Clicked(first)] + Ticks(ss));
      r.state == After && r.step == MAX_TIME && r.score == 0 && r.timers == {}
      && r.numbers == EmitAll([seed], [first] + ss)
  {
    var st := Initial(seed);
    var es := [Clicked(first)] + Ticks(ss);
    var started := Step(st, Clicked(first));
    StepKeepsClean(st, Clicked(first));
    assert es[1..] == Ticks(ss);
    TicksFinish(started, ss);
    assert started.numbers == Emit([seed], first);
    EmitAllCons([seed], first, ss);
  }

  // ---------------------------------------------------------------------------
  // Where the code departs from the intended lifecycle

  /**
    Changing the level during a run leaves its interval armed: the phase is
    BEFORE, yet the timer still fires and the step counts up.
   */
  lemma LevelChangeLeaksTimer(st: AppState, n: int, s: string)
    requires Inv(st) && st.state == Running
    requires MIN_LEVEL <= n <= MAX_LEVEL && IsStimulus(s)
    ensures var b := Step(st, LevelChanged(n));
      && b.state == Before && b.step == 0 && st.intervalId in b.timers
      && Enabled(b, TimerFired(s))
      && Step(b, TimerFired(s)).state == Before && Step(b, TimerFired(s)).step == 1
  {
  }

  /**
    The finish check clears only the latest interval: with an older one still
    armed the run ends with a timer that keeps firing and counting past
    `maxTime`.
   */
  lemma FinishClearsOnlyLatest(st: AppState, s: string)
    requires Inv(st) && st.state == Running && st.step >= MAX_TIME
    requires st.timers - {st.intervalId} != {} && IsStimulus(s)
    ensures var f := CheckFinish(st);
      && f.state == After && Enabled(f, TimerFired(s))
      && Step(f, TimerFired(s)).step == st.step + 1 > MAX_TIME
  {
    var f := CheckFinish(st);
    var t :| t in st.timers - {st.intervalId};
    assert t in f.timers;
  }

  /**
    The seed letter drawn at mount is never displayed, yet it is in the
    history: at level 1 the first guess of the first run compares the first
    letter shown with it.
   */
  lemma FirstGuessMeetsSeed(seed: string, first: string)
    requires IsStimulus(seed) && IsStimulus(first)
    ensures Feasible(Initial(seed), [Clicked(first), Clicked(first)])
    ensures var r := Run(Initial(seed), [Clicked(first), Clicked(first)]);
      r.state == Running && r.step == 1 && (r.score == 1 <==> first == seed)
  {
    var st := Initial(seed);
    var es := [Clicked(first), Clicked(first)];
    var s1 := Step(st, es[0]);
    assert s1.numbers == [first, seed];
    var s2 := Step(s1, Clicked(first));
    assert es[1..] == [Clicked(first)] && es[1..][1..] == [];
    assert Feasible(s2, []);
    assert Feasible(s1, es[1..]) && Run(s1, es[1..]) == Run(s2, []);
  }

  /**
    A scripted run at level 2 with letters A, O, P, A, F: the guess after the
    fourth letter (A against O) and the guess after the fifth (F against P)
    are both wrong, whatever the seed.
   */
  lemma ScriptedLevelTwo(seed: string)
    requires IsStimulus(seed)
    ensures var s0 := Step(Initial(seed), LevelChanged(2));
      var s1 := Step(s0, Clicked("A"));
      var s4 := Step(Step(Step(s1, TimerFired("O")), TimerFired("P")), TimerFired("A"));
      var g4 := Step(s4, Clicked("A"));
      var s5 := Step(g4, TimerFired("F"));
      var g5 := Step(s5, Clicked("F"));
      && s4.step == 4 && s4.numbers[0] == "A" && s4.numbers[2] == "O" && g4.score == -1
      && s5.step == 5 && s5.numbers[0] == "F" && s5.numbers[2] == "P" && g5.score == -2
      && g5.state == Running
  {
  }
}
