/**
 * The session engine: the trainer's state and the operations that change it
 * (start, submit, advance, timer ticks, restore). Each callback of the source is a
 * method here, run to completion one at a time; a scheduled callback firing is a
 * call of its own (`FireAdvance`, `SessionTick`, `QuestionTick`).
 */
module Session {
  import opened Wrappers
  import opened Numerals
  import opened Problems
  import opened Trace
  import opened Difficulty
  import opened Persistence

  class Trainer {
    var problem: Problem
    var userAnswer: string
    var feedback: Feedback
    var sessionActive: bool
    var questionsAnswered: nat
    var difficulty: real
    var showStart: bool
    var sessionTimer: nat
    var questionTimer: nat
    var trace: seq<TraceEntry>
    var speechMode: bool
    /** Feedback delays started by submissions that have not fired yet. */
    var pendingAdvances: nat

    /** The fields the trainer saves after every change. */
    function Saved(): Snapshot
      reads this
    {
      Snapshot(trace, sessionActive, questionsAnswered, difficulty, showStart, sessionTimer, problem, speechMode)
    }

    /** The difficulty `nextProblem` generates its problem at. */
    function AdvanceDifficulty(): real
      reads this
    {
      if sessionActive then NextDifficulty(questionsAnswered, difficulty) else 1.0
    }

    /** Difficulty stays a whole number of hundredths, at least 1. */
    ghost predicate DifficultyInRange()
      reads this
    {
      difficulty >= 1.0 && IsHundredths(difficulty)
    }

    /** The initial state, around a first problem at difficulty 1. */
    constructor (dr: Draws)
      requires DrawsFit(1.0, dr)
      ensures Saved() == InitialSnapshot(GenerateProblem(1.0, dr))
      ensures userAnswer == "" && feedback == NoFeedback && questionTimer == 0 && pendingAdvances == 0
      ensures DifficultyInRange()
    {
      problem := GenerateProblem(1.0, dr);
      userAnswer := "";
      feedback := NoFeedback;
      sessionActive := false;
      questionsAnswered := 0;
      difficulty := 1.0;
      showStart := true;
      sessionTimer := 0;
      questionTimer := 0;
      trace := [];
      speechMode := false;
      pendingAdvances := 0;
      IntIsHundredths(1);
    }

    /**
     * The start-up load: nothing happens without a saved snapshot; otherwise every
     * saved field is restored with its default. `dr` draws the problem generated
     * when none was saved. A restored active session restarts the question timer.
     */
    method RestoreCache(cached: Option<StoredSnapshot>, dr: Draws)
      requires DrawsFit(1.0, dr)
      modifies this
      ensures cached.None? ==> Saved() == old(Saved()) && questionTimer == old(questionTimer)
      ensures cached.Some? ==> Saved() == Restore(cached.value, GenerateProblem(1.0, dr))
      ensures cached.Some? ==> questionTimer == if sessionActive then 0 else old(questionTimer)
      ensures userAnswer == old(userAnswer) && feedback == old(feedback)
      ensures pendingAdvances == old(pendingAdvances)
    {
      if cached.Some? {
        var s := Restore(cached.value, GenerateProblem(1.0, dr));
        trace := s.trace;
        sessionActive := s.sessionActive;
        questionsAnswered := s.questionsAnswered;
        difficulty := s.difficulty;
        showStart := s.showStart;
        sessionTimer := s.sessionTimer;
        problem := s.problem;
        speechMode := s.speechMode;
        if sessionActive {
          questionTimer := 0;
        }
      }
    }

    /** `startSession`: a hard reset into an active session, whatever came before. */
    method StartSession(dr: Draws)
      requires DrawsFit(1.0, dr)
      modifies this
      ensures Saved() == Snapshot([], true, 0, 1.0, false, 0, GenerateProblem(1.0, dr), false)
      ensures userAnswer == "" && feedback == NoFeedback && questionTimer == 0
      ensures pendingAdvances == old(pendingAdvances)
      ensures DifficultyInRange()
    {
      sessionActive := true;
      questionsAnswered := 0;
      difficulty := 1.0;
      problem := GenerateProblem(1.0, dr);
      userAnswer := "";
      feedback := NoFeedback;
      showStart := false;
      sessionTimer := 0;
      questionTimer := 0;
      trace := [];
      speechMode := false;
      IntIsHundredths(1);
    }

    /** The answer box changing. */
    method EnterAnswer(raw: string)
      modifies this
      ensures userAnswer == raw
      ensures Saved() == old(Saved()) && feedback == old(feedback)
      ensures questionTimer == old(questionTimer) && pendingAdvances == old(pendingAdvances)
    {
      userAnswer := raw;
    }

    /** The speech-mode checkbox. */
    method SetSpeechMode(on: bool)
      modifies this
      ensures Saved() == old(Saved()).(speechMode := on)
      ensures userAnswer == old(userAnswer) && feedback == old(feedback)
      ensures questionTimer == old(questionTimer) && pendingAdvances == old(pendingAdvances)
    {
      speechMode := on;
    }

    /**
     * `handleSubmit`. `user` is `Number(userAnswer)`, `None` when that is not a number.
     * The learner is told whether the answer was right. In a session the answer is
     * appended to the trace and the advance is scheduled; otherwise neither happens.
     */
    method HandleSubmit(user: Option<real>)
      modifies this
      ensures feedback == FeedbackFor(problem, user)
      ensures sessionActive ==>
        trace == old(trace) + [Entry(problem, userAnswer, user, questionTimer)] &&
        pendingAdvances == old(pendingAdvances) + 1
      ensures !sessionActive ==> trace == old(trace) && pendingAdvances == old(pendingAdvances)
      ensures Saved() == old(Saved()).(trace := trace)
      ensures userAnswer == old(userAnswer) && questionTimer == old(questionTimer)
    {
      feedback := FeedbackFor(problem, user);
      if sessionActive {
        trace := trace + [Entry(problem, userAnswer, user, questionTimer)];
        pendingAdvances := pendingAdvances + 1;
      }
    }

    /** Enter in the answer box submits, unless the box is empty. */
    method KeyDown(isEnter: bool, user: Option<real>)
      modifies this
      ensures isEnter && old(userAnswer) != "" ==>
        feedback == FeedbackFor(problem, user) &&
        trace == (if sessionActive then old(trace) + [Entry(problem, userAnswer, user, questionTimer)] else old(trace)) &&
        pendingAdvances == old(pendingAdvances) + (if sessionActive then 1 else 0)
      ensures !(isEnter && old(userAnswer) != "") ==>
        trace == old(trace) && feedback == old(feedback) && pendingAdvances == old(pendingAdvances)
      ensures Saved() == old(Saved()).(trace := trace)
      ensures userAnswer == old(userAnswer) && questionTimer == old(questionTimer)
    {
      if isEnter && userAnswer != "" {
        HandleSubmit(user);
      }
    }

    /**
     * `nextProblem`. In a session: count the question, escalate the difficulty at
     * every 20th, and generate at the new difficulty. Outside one: only a new
     * problem at difficulty 1. Either way the answer, feedback and question timer clear.
     */
    method NextProblem(dr: Draws)
      requires DrawsFit(AdvanceDifficulty(), dr)
      modifies this
      ensures old(sessionActive) ==>
        questionsAnswered == old(questionsAnswered) + 1 &&
        difficulty == NextDifficulty(old(questionsAnswered), old(difficulty)) &&
        problem == GenerateProblem(difficulty, dr)
      ensures !old(sessionActive) ==>
        questionsAnswered == old(questionsAnswered) && difficulty == old(difficulty) &&
        problem == GenerateProblem(1.0, dr)
      ensures Saved() == old(Saved()).(questionsAnswered := questionsAnswered, difficulty := difficulty, problem := problem)
      ensures userAnswer == "" && feedback == NoFeedback && questionTimer == 0
      ensures pendingAdvances == old(pendingAdvances)
      ensures old(difficulty) >= 0.0 && IsHundredths(old(difficulty)) ==> difficulty >= old(difficulty)
      ensures old(DifficultyInRange()) ==> DifficultyInRange()
    {
      if sessionActive {
        var nextCount := questionsAnswered + 1;
        var newDifficulty := difficulty;
        if nextCount % EscalationPeriod == 0 {
          newDifficulty := Escalate(difficulty);
          difficulty := newDifficulty;
        }
        questionsAnswered := nextCount;
        problem := GenerateProblem(newDifficulty, dr);
      } else {
        problem := GenerateProblem(1.0, dr);
      }
      userAnswer := "";
      feedback := NoFeedback;
      questionTimer := 0;
    }

    /** The feedback delay of an earlier submission running out: the scheduled advance. */
    method FireAdvance(dr: Draws)
      requires DrawsFit(AdvanceDifficulty(), dr)
      modifies this
      ensures old(pendingAdvances) == 0 ==>
        Saved() == old(Saved()) && pendingAdvances == 0 &&
        userAnswer == old(userAnswer) && feedback == old(feedback) && questionTimer == old(questionTimer)
      ensures old(pendingAdvances) > 0 ==>
        pendingAdvances == old(pendingAdvances) - 1 &&
        userAnswer == "" && feedback == NoFeedback && questionTimer == 0 &&
        (old(sessionActive) ==>
           questionsAnswered == old(questionsAnswered) + 1 &&
           difficulty == NextDifficulty(old(questionsAnswered), old(difficulty)) &&
           problem == GenerateProblem(difficulty, dr)) &&
        (!old(sessionActive) ==>
           questionsAnswered == old(questionsAnswered) &&
           difficulty == old(difficulty) && problem == GenerateProblem(1.0, dr))
      ensures Saved() == old(Saved()).(questionsAnswered := questionsAnswered, difficulty := difficulty, problem := problem)
    {
      if pendingAdvances > 0 {
        pendingAdvances := pendingAdvances - 1;
        NextProblem(dr);
      }
    }

    /** One second of the session timer: it counts only during a session. */
    method SessionTick()
      modifies this
      ensures sessionActive ==> Saved() == old(Saved()).(sessionTimer := old(sessionTimer) + 1)
      ensures !sessionActive ==> Saved() == old(Saved())
      ensures questionTimer == old(questionTimer)
      ensures userAnswer == old(userAnswer) && feedback == old(feedback) && pendingAdvances == old(pendingAdvances)
    {
      if sessionActive {
        sessionTimer := sessionTimer + 1;
      }
    }

    /** One second of the question timer: it counts only during a session. */
    method QuestionTick()
      modifies this
      ensures questionTimer == if sessionActive then old(questionTimer) + 1 else old(questionTimer)
      ensures Saved() == old(Saved())
      ensures userAnswer == old(userAnswer) && feedback == old(feedback) && pendingAdvances == old(pendingAdvances)
    {
      if sessionActive {
        questionTimer := questionTimer + 1;
      }
    }
  }
}
