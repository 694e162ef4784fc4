# n-back session engine in Dafny

This project models the session engine of the `App` component of the n-back game (`src/App.tsx`). The game shows one letter at a time. The player clicks when the current letter equals the one shown `level` letters earlier.

The engine holds this React state:

- the stimulus history `numbers`, newest first, capped at 10 entries;
- `step`, `score`, the feedback flags `isCorrect` and `isWrong`, and `level`;
- the id of the latest armed interval;
- the phase `state`, which is BEFORE, RUNNING or AFTER.

Five handlers change this state:

- `update` emits a stimulus;
- `start` begins a run;
- `guessNumberHandler` scores a guess;
- `setLevelHandler` resets the run;
- the finish check runs on every render.

A click on the big circle calls `start` in BEFORE and `guessNumberHandler` in any other phase.

The project has three modules:

- `Stimuli` (`stimuli.dfy`) holds the alphabet, the history window (`Emit`, `EmitAll`) and `correctGuess` (`CorrectGuess`). A read past the end of the history is JavaScript's `undefined`, which never equals a letter. Its lemmas show that the history holds exactly the most recent letters. They also show that `CorrectGuess` at depth `d` is the n-back rule on the sequence of letters shown.
- `Engine` (`engine.dfy`) defines the state as a value (`AppState`) and one function per handler. `Event` is a timer firing, a click or a level change. `Step` applies an event's handler and then the finish check of the re-render. `Run` applies a sequence of events. The lemmas cover each transition on its own, the invariant of every reachable state, and the lifecycle over whole runs.
- `App` (`app.dfy`) defines the class `NBackApp`. It has one field per piece of React state. Its methods update those fields in place, as the setters do. Each method is proved to move the object exactly as the matching `Engine` function moves the value.

The class has one method per handler. Two more methods, `Tick` (a timer firing) and `Press` (a click), also run the finish check of the re-render that follows. For the other handlers, the render is a separate `CheckFinish` call. After `SetLevel` that call changes nothing, because the phase is BEFORE.

The browser's interval timers are modelled as a set of armed interval ids plus the next id the host hands out. Ids are positive, so the initial `intervalId` of 0 names no timer. A timer can fire only while some interval is armed.

## Behaviour of the code where it departs from the intended lifecycle

The intended lifecycle has three rules:

- no timer and no ticks before a run;
- exactly one timer during a run;
- no timer after a run, which stops at exactly 30 ticks.

This is `Engine.Clean`. Every event keeps it except a change of level during a run. The model follows the code, and these departures are proved:

- `setLevelHandler` does not clear the interval. After a level change during a run, the timer keeps firing in BEFORE and `step` counts up from 0 (`Engine.LevelChangeLeaksTimer`). The next `start` arms a second interval. The finish check clears only the latest one, so the phase becomes AFTER while a timer is still armed, and `step` then goes past 30 (`Engine.FinishClearsOnlyLatest`).
- The letter drawn at mount is never shown, but it is part of the history. So in the first run, a guess when `step == level` is compared with that hidden letter, and it can be correct (`Engine.FirstGuessMeetsSeed`, `Stimuli.NBackReachesOlderHistory`). It is not always wrong. Only a guess deeper than the whole history is always wrong (`Stimuli.NBackBeyondHistory`).
- `setLevelHandler` does not clear the history. In a later run, a guess when `step <= level` compares against letters from before that run: the last letters of the previous run, or letters emitted in BEFORE by a leaked timer.
- A guess has no phase guard. It is reachable in AFTER through the click dispatch, where it still changes the score.

## Model

| member | source | states |
|---|---|---|
| `Stimuli.CorrectGuess` | src/App.tsx:14-16 | On a non-empty history, true iff `depth` lies inside the history and the entry there equals the newest one. On an empty history, true, because `undefined === undefined`. |
| `Stimuli.Emit` | src/App.tsx:78 | The new letter becomes entry 0. Every earlier entry moves one place back. The length is the old length plus one, capped at 10. |
| `Stimuli.EmitKeepsStimuli` | src/App.tsx:4-12 | Emitting a letter of the alphabet into a history of letters of the alphabet gives a history of letters of the alphabet. |
| `Stimuli.EmitAllWindow` | src/App.tsx:77-82 | After any sequence of emissions, the history holds the most recent letters newest first: the letters shown, then the older history. Its length is the total capped at 10. |
| `Stimuli.EmitAllCons` | src/App.tsx:78 | Emitting one letter and then a sequence equals emitting the longer sequence. |
| `Stimuli.NBackMatch` | src/App.tsx:14-16 | Once more than `d` letters have been shown (`0 < d < 10`), a guess at depth `d` is correct iff the current letter equals the letter shown `d` emissions earlier. |
| `Stimuli.NBackReachesOlderHistory` | src/App.tsx:14-16 | When exactly `d` letters have been shown, a guess at depth `d` compares the current letter with the newest entry that was already in the history. |
| `Stimuli.NBackBeyondHistory` | src/App.tsx:14-16 | A guess deeper than everything in the history is never correct. |
| `Engine.Ticks` | src/App.tsx:86 | One timer firing per letter, in order. |
| `Engine.InitialInv` | src/App.tsx:61-70 | The mounted state satisfies the invariant, with phase BEFORE, step 0 and score 0. |
| `Engine.UpdateEffect` | src/App.tsx:77-82 | `update` puts the letter at index 0 and keeps the previous entries in order behind it. It caps the history at 10, adds exactly 1 to `step` and clears both flags. Score, level, phase and timers are unchanged. |
| `Engine.StartEffect` | src/App.tsx:84-89 | `start` performs exactly one emission: `step` + 1, the history of `update`, and both flags cleared. It arms the next interval id, which was not armed before, records it as the latest, advances the id allocator and sets RUNNING. Apart from the timer fields and the phase, the result is exactly the state after `update`. |
| `Engine.GuessEffect` | src/App.tsx:93-104 | A correct guess adds 1 to the score and sets `isCorrect`. Otherwise the guess subtracts 1 (no floor) and sets `isWrong`. The other flag keeps its value. Every other field is unchanged: history, step, level, phase, armed intervals and latest interval id. |
| `Engine.GuessNeedsDepth` | src/App.tsx:93-104 | On a reachable state, the score rises iff `level` is inside the history and that entry equals the newest one. It falls in every other case, including a history that is too short. |
| `Engine.SetLevelEffect` | src/App.tsx:106-111 | Sets the level, BEFORE, step 0 and score 0. History, armed intervals, latest interval id and flags are unchanged. |
| `Engine.SetLevelIdempotent` | src/App.tsx:106-111 | Changing the level twice to the same value gives the same state as changing it once. |
| `Engine.CheckFinishEffect` | src/App.tsx:72-75 | The phase becomes AFTER iff it was RUNNING with `step >= 30`. That clears exactly the latest interval. Nothing else changes, and a second check changes nothing. |
| `Engine.ClickDispatch` | src/App.tsx:132 | A click in BEFORE is `start`. A click in any other phase is a guess. |
| `Engine.StepKeepsInv` | src/App.tsx:72-111 | Every possible event, followed by the finish check, keeps the invariant. The invariant covers: 1 to 10 letters of the alphabet in the history; level in 1..9; non-negative step; valid interval ids; RUNNING implies the latest interval is armed; AFTER implies `step >= 30`. |
| `Engine.RunKeepsInv` | src/App.tsx:72-111 | Every state reachable by a sequence of possible events from a valid state is valid. |
| `Engine.AfterIsAbsorbing` | src/App.tsx:72-75 | From AFTER, no sequence of timer firings and clicks leaves AFTER. Only a level change does. |
| `Engine.InitialClean` | src/App.tsx:61-70 | The mounted state follows the intended lifecycle. |
| `Engine.StepKeepsClean` | src/App.tsx:72-111 | Every possible event except a level change during a run keeps the intended lifecycle. |
| `Engine.RunKeepsClean` | src/App.tsx:72-111 | Every sequence of events without a level change during a run keeps the intended lifecycle. |
| `Engine.CleanAfterIsStopped` | src/App.tsx:72-75 | A finished session that follows the intended lifecycle has step exactly 30 and no armed timer, so no further tick can happen. |
| `Engine.TicksFinish` | src/App.tsx:72-89 | During a clean run, the remaining `30 - step` timer firings are all possible. They end the run at exactly step 30 in AFTER with no interval left, keep the score, and leave the history as the window of the letters shown. |
| `Engine.WholeSession` | src/App.tsx:61-89 | From mount, one click then 29 timer firings end in AFTER at step 30. The score is 0, no interval is armed, and the history is the window of the seed letter and every letter shown. |
| `Engine.LevelChangeLeaksTimer` | src/App.tsx:106-111 | A level change during a run gives BEFORE with step 0 and the run's interval still armed. A timer firing is then possible, and it counts the step to 1 while the phase stays BEFORE. |
| `Engine.FinishClearsOnlyLatest` | src/App.tsx:72-75 | With an older interval still armed, the finish check gives AFTER while a timer can still fire. That firing counts the step past 30. |
| `Engine.FirstGuessMeetsSeed` | src/App.tsx:61 | At level 1, the first guess of the first run is correct iff the first letter shown equals the hidden seed letter. |
| `Engine.ScriptedLevelTwo` | src/App.tsx:77-104 | At level 2, with letters A, O, P, A, F, the guess after the fourth letter (A against O) scores -1. The guess after the fifth (F against P) scores -2. The run is still going. This holds for any seed. |
| `App.NBackApp.constructor` | src/App.tsx:61-70 | The fields start as the mounted state: history of the seed letter, step 0, score 0, no flags, level 1, interval id 0, BEFORE, no timer. |
| `App.NBackApp.Update` | src/App.tsx:77-82 | The fields move exactly as `Engine.Update`, and the invariant is kept. |
| `App.NBackApp.Start` | src/App.tsx:84-89 | The fields move exactly as `Engine.Start`: the update, then a fresh interval armed and recorded, then RUNNING. |
| `App.NBackApp.Guess` | src/App.tsx:93-104 | The fields move exactly as `Engine.Guess`. |
| `App.NBackApp.SetLevel` | src/App.tsx:106-111 | The fields move exactly as `Engine.SetLevel`. |
| `App.NBackApp.CheckFinish` | src/App.tsx:72-75 | The fields move exactly as `Engine.CheckFinish`. |
| `App.NBackApp.Click` | src/App.tsx:132 | The fields move exactly as `Engine.Click`. |
| `App.NBackApp.Press` | src/App.tsx:132 | A click followed by its render moves the fields as `Engine.Step` does for that click. From BEFORE it adds 1 to `step` and gives RUNNING, or AFTER if the step has reached 30 (possible after a leaked timer). From any other phase it keeps the step, the history and the level, and it never leaves AFTER. |
| `App.NBackApp.Tick` | src/App.tsx:86 | A timer firing followed by its render moves the fields as `Engine.Step` does for that firing. It adds exactly 1 to `step`, keeps score and level, and never leaves AFTER. |

## Left out

- Rendering is not modelled: the `Level` and `Progress` components, the colours and styles, the letter or placeholder shown, and the `<meter>` thresholds, which use floating-point products. None of it changes the session state.
- `randomNumber` (`Math.random`, `Math.floor`) is not modelled. Each call becomes a letter parameter that must be in the alphabet.
- The 1000 ms delay and the timing of `setInterval` are not modelled. A timer firing is an explicit event (`Engine.TimerFired`, `App.NBackApp.Tick`), possible whenever some interval is armed. The interval ids model the host's allocator: positive and never reused.
- React's batching and scheduling are not modelled. Each handler's setters apply together, and the finish check runs once after every event, as the re-render does.
- The `console.log` calls are left out. They are output only.
- `Number(e.target.value)` is not modelled. The slider's value is a parameter in 1..9, the range input's bounds.

