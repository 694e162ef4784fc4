/**
  The `App` component as an object: one field per piece of React state, and
  one method per handler, each updating the fields in place as the setters
  do. Every method is proved to move the object exactly as the matching
  `Engine` transition moves its value, so the lemmas of `Engine` hold of it.
 */
module App {
  import opened Stimuli
  import Engine

  class NBackApp {
    var numbers: seq<string>
    var step: int
    var score: int
    var isCorrect: bool
    var isWrong: bool
    var level: int
    var intervalId: nat
    var state: Engine.Phase
    var timers: set<nat>
    var nextTimer: nat

    /** The value of the component's state. */
    ghost function Model(): Engine.AppState
      reads this
    {
      Engine.AppState(numbers, step, score, isCorrect, isWrong, level, intervalId, state, timers, nextTimer)
    }

    ghost predicate Valid()
      reads this
    {
      Engine.Inv(Model())
    }

    /** Mounting, with `seed` the first letter drawn for the history. */
    constructor (seed: string)
      requires IsStimulus(seed)
      ensures Valid() && Model() == Engine.Initial(seed)
    {
      numbers := [seed];
      step := 0;
      score := 0;
      isCorrect := false;
      isWrong := false;
      level := 1;
      intervalId := 0;
      state := Engine.Before;
      timers := {};
      nextTimer := 1;
    }

    /** `update`, with `s` the letter drawn by `randomNumber`. */
    method Update(s: string)
      requires Valid() && IsStimulus(s)
      modifies this
      ensures Valid() && Model() == Engine.Update(old(Model()), s)
    {
      EmitKeepsStimuli(numbers, s);
      numbers := Emit(numbers, s);
      step := step + 1;
      isCorrect := false;
      isWrong := false;
    }

    /** `start`: one emission, then an interval is armed and the run begins. */
    method Start(s: string)
      requires Valid() && IsStimulus(s)
      modifies this
      ensures Valid() && Model() == Engine.Start(old(Model()), s)
    {
      Update(s);
      var id := nextTimer;
      nextTimer := nextTimer + 1;
      timers := timers + {id};
      intervalId := id;
      state := Engine.Running;
    }

    /** `guessNumberHandler`. */
    method Guess()
      requires Valid()
      modifies this
      ensures Valid() && Model() == Engine.Guess(old(Model()))
    {
      var correct := CorrectGuess(numbers, level);
      if correct {
        isCorrect := true;
        score := score + 1;
      } else {
        isWrong := true;
        score := score - 1;
      }
    }

    /** `setLevelHandler`, with `n` the slider's value. */
    method SetLevel(n: int)
      requires Valid() && Engine.MIN_LEVEL <= n <= Engine.MAX_LEVEL
      modifies this
      ensures Valid() && Model() == Engine.SetLevel(old(Model()), n)
    {
      level := n;
      state := Engine.Before;
      step := 0;
      score := 0;
    }

    /** The finish check at the top of every render. */
    method CheckFinish()
      requires Valid()
      modifies this
      ensures Valid() && Model() == Engine.CheckFinish(old(Model()))
    {
      if state == Engine.Running && step >= Engine.MAX_TIME {
        timers := timers - {intervalId};
        state := Engine.After;
      }
    }

    /** The click handler of the big circle; `s` is used only when the click starts a run. */
    method Click(s: string)
      requires Valid() && IsStimulus(s)
      modifies this
      ensures Valid() && Model() == Engine.Click(old(Model()), s)
    {
      if state == Engine.Before {
        Start(s);
      } else {
        Guess();
      }
    }

    /** A click on the big circle, followed by the render it causes. */
    method Press(s: string)
      requires Valid() && IsStimulus(s)
      modifies this
      ensures Valid() && Model() == Engine.Step(old(Model()), Engine.Clicked(s))
      ensures old(state) == Engine.Before ==>
        step == old(step) + 1 && state == (if step >= Engine.MAX_TIME then Engine.After else Engine.Running)
      ensures old(state) != Engine.Before ==> step == old(step) && numbers == old(numbers) && level == old(level)
      ensures old(state) == Engine.After ==> state == Engine.After
    {
      Click(s);
      CheckFinish();
    }

    /** One firing of an armed interval, followed by the render it causes. */
    method Tick(s: string)
      requires Valid() && IsStimulus(s) && timers != {}
      modifies this
      ensures Valid() && Model() == Engine.Step(old(Model()), Engine.TimerFired(s))
      ensures step == old(step) + 1 && score == old(score) && level == old(level)
      ensures old(state) == Engine.After ==> state == Engine.After
    {
      Update(s);
      CheckFinish();
    }
  }
}
