# Mental-math trainer: the session engine

A model of the session engine of a browser-based arithmetic drill trainer. The trainer
shows a generated problem (`a + b`, `a - b`, `a × b` or `a ÷ b`) and checks the learner's
answer. In a session it records each answer in a trace, counts questions and raises
the difficulty every 20th question. It also runs a session timer and a per-question timer
and saves its state so that a reload can resume.

Modules, one per part of the engine:

- `Operators` (operators.dfy): the operator table as a closed tag `Op` with its symbol,
  name, function (`Eval`) and spoken sentence.
- `Problems` (problems.dfy): problem generation from the random draws, the rounding rule
  for division answers and the answer check.
- `Trace` (trace.dfy): trace entries and the display order (a stable sort).
- `Difficulty` (difficulty.dfy): the escalation rule and its behaviour over many questions.
- `Persistence` (persistence.dfy): the saved snapshot and how it is read back with `||` defaults.
- `Session` (session.dfy): class `Trainer` holding the component's state. Its methods are the handlers
  and callbacks that change that state.
- `Numerals` (numerals.dfy) and `Wrappers` (wrappers.dfy): decimal printing of integers,
  two-decimal rounding, `Option` and `Result`.

Numbers. Operands are `int`. Answers, the learner's value and the difficulty are `real`,
which in Dafny means exact rationals. `Number(x.toFixed(2))` is modelled as `Round2`:
the nearest multiple of 0.01 to the exact value of `x`, with a tie going away from zero.
A non-finite JavaScript result (division by zero) is `None`. The learner's answer
`Number(userAnswer)` is passed in already parsed, as `Option<real>`. `None` stands for
NaN, which equals nothing.

Randomness. A draw is the value `Math.floor(Math.random() * span)`. `DrawFits` states
which values it can take, including the empty and negative spans that the source's
`getRandomInt` allows. The operations that generate a problem take the three draws as a
`Draws` parameter.

Three behaviours of the code that a reader might not expect:

- Starting a session does not cancel a feedback delay still pending from an earlier
  submission. The model keeps this: `StartSession` keeps `pendingAdvances` as it was. In practice none can be
  pending then, because the start button only shows outside a session.
- A corrupted saved snapshot makes `JSON.parse` throw. It is not read as "absent". The model
  does not capture this: JSON parsing is I/O and is left out, so `RestoreCache` only sees an
  absent or parsed snapshot.
- From 1 on, every escalation raises the difficulty. Below 1 it can fall unless it is a
  non-negative whole number of hundredths, which every difficulty reached in a session is.
  A hand-edited snapshot holding, say, 0.003 would escalate to 0, and one holding -1 would
  escalate to -1.3. The model keeps this (`Difficulty.Escalate` states the precise conditions).

## Model

| member | source | states |
|---|---|---|
| `Numerals.Round2` | src/App.jsx:179-181 | `Number(x.toFixed(2))` is a whole number of hundredths within 0.005 of `x` |
| `Numerals.Round2Window` | src/App.jsx:179-181 | a value rounds to `n/100` exactly when it lies in the half-open window of width 0.01 around it (both directions) |
| `Numerals.Round2Idempotent` | src/App.jsx:179-181 | rounding a rounded value changes nothing |
| `Numerals.Round2Exact` | src/App.jsx:179 | a whole number of hundredths is left as it is |
| `Numerals.IntToStringRoundTrip` | src/App.jsx:193 | the decimal text a template string prints for an integer reads back as that integer |
| `Numerals.IntToStringInjective` | src/App.jsx:193 | different integers print differently |
| `Operators.IndexOf` | src/App.jsx:4-9 | every operator has a position in the four-entry table, and the table holds that operator there |
| `Operators.FromSymbol` | src/App.jsx:4-9 | a symbol that is recognised is the symbol of the operator it yields |
| `Operators.SymbolRoundTrip` | src/App.jsx:4-9 | looking up an operator's symbol in the table gives back that operator |
| `Operators.NameIdentifiesOperator` | src/App.jsx:11-16 | about `Operators.Name`, the `operationNames` table, whose body gives Addition, Subtraction, Multiplication and Division: no two operators share a name |
| `Operators.Eval` | src/App.jsx:5-8 | the result is missing (non-finite) exactly for division by zero; a quotient times the divisor gives the dividend and is whole when the divisor divides |
| `Operators.SpokenOperation` | src/App.jsx:41-54 | the sentence starts "What is " and ends with "?" |
| `Operators.SpokenExamples` | src/App.jsx:41-54 | for 7 and 5 the sentences are "What is 7 plus 5?", "What is 7 minus 5?", "What is 7 times 5?" and "What is 7 divided by 5?" |
| `Operators.SpokenOperationNamesOperator` | src/App.jsx:41-54 | sentences for the same operands but different operators differ |
| `Operators.SpokenOperationNamesOperands` | src/App.jsx:41-54 | both operands can be read back from the sentence |
| `Problems.RandomInt` | src/App.jsx:18-20 | `getRandomInt(lo, hi)` lies in `[lo, hi]` whenever that range is non-empty |
| `Problems.GenerateProblem` | src/App.jsx:22-36 | the operator is the drawn table entry; with `max = floor(20·d) >= 1`, `b` is in `[1, max]`; `a` is in range for `+ - ×`; for `÷`, `b` divides `a` and the quotient is in range; `b >= 1` whenever `max >= 0` |
| `Problems.GenerateProblemCovers` | src/App.jsx:22-36 | every operator and every pair of in-range operands has draws that generate it |
| `Problems.CorrectAnswer` | src/App.jsx:177-180 | the expected answer exists unless dividing by zero; for division it is a whole number of hundredths |
| `Problems.UserValue` | src/App.jsx:181 | the compared value is a number exactly when the typed answer is; it is the typed value for `+ - ×` and, for `÷`, a whole number of hundredths within 0.005 of it |
| `Problems.IsCorrect` | src/App.jsx:181-182 | an answer is accepted only if it is a number and an expected answer exists |
| `Problems.NonDivisionIsExact` | src/App.jsx:177-182 | for `+ - ×` an answer is accepted exactly when it equals the unrounded result |
| `Problems.DivisionAcceptsRounded` | src/App.jsx:177-182 | for `÷` an answer is accepted exactly when it rounds to the same two decimals as the true quotient |
| `Problems.ShownAnswerIsAccepted` | src/App.jsx:177-186 | the answer the feedback shows as correct is accepted when typed back |
| `Problems.GeneratedDivisionAnswer` | src/App.jsx:28-30 | a generated division problem's expected answer is exactly its whole quotient; rounding does not change it |
| `Problems.FifteenOverFour` | src/App.jsx:177-182 | 15 ÷ 4 expects 3.75; 3.75 and 3.749 are accepted, 3.8 and a non-number are not |
| `Problems.FeedbackFor` | src/App.jsx:183-187 | the feedback is "correct" exactly when the answer is accepted, and otherwise carries the expected answer |
| `Trace.QuestionTextNamesProblem` | src/App.jsx:193 | about `Trace.QuestionText`, the `a op b` text of an entry: it determines the problem, so different problems are shown differently |
| `Trace.Entry` | src/App.jsx:192-202 | an entry records the question text, the problem's operands, symbol and operation name, the raw typed answer, the expected answer, whether it was accepted and the question time |
| `Trace.Compare` | src/App.jsx:241-246 | the comparator is negative exactly when the first entry is a mistake and the second is not, or both agree in correctness and the first took longer; it is 0 exactly for equal correctness and time |
| `Trace.CompareAntisymmetric` | src/App.jsx:241-246 | swapping the two entries flips the comparator's sign |
| `Trace.SortedTrace` | src/App.jsx:239-246 | the display order is a permutation of the trace, ordered by the comparator |
| `Trace.SortedMeansMistakesFirst` | src/App.jsx:238-246 | in the display order every mistake comes before every correct answer, and within each group times do not increase |
| `Trace.SortIsStable` | src/App.jsx:239-246 | entries with the same correctness and time keep their chronological order |
| `Trace.ExampleOrder` | src/App.jsx:239-246 | mistakes at 2 s and 7 s and a correct answer at 10 s are shown 7 s, 2 s, 10 s |
| `Difficulty.Escalate` | src/App.jsx:216 | one escalation gives a whole number of hundredths, never lower than a non-negative whole-hundredths difficulty and strictly higher from 1 on |
| `Difficulty.NextDifficulty` | src/App.jsx:213-218 | the difficulty escalates when the new count is a multiple of 20 and is unchanged otherwise |
| `Difficulty.DifficultyNeverDecreases` | src/App.jsx:211-223 | from a non-negative whole-hundredths start (every difficulty a session reaches), the difficulty never falls below where it started over any number of advances |
| `Difficulty.DifficultyAfterCountsMultiples` | src/App.jsx:213-219 | after any run of advances the difficulty has escalated exactly once per multiple of 20 passed |
| `Difficulty.EscalationsGrow` | src/App.jsx:216 | from difficulty 1 on, each escalation strictly raises the difficulty |
| `Difficulty.FortyFiveQuestions` | src/App.jsx:213-219 | from 1: still 1 after 19 questions, 1.3 after 20, 1.69 after 40 and still 1.69 after 45 |
| `Persistence.Or` | src/App.jsx:88-95 | JavaScript's or-default gives the default for a missing field and for a present falsy one (a saved 0 gives the default), and the value for a truthy one |
| `Persistence.Save` | src/App.jsx:103-112 | saving writes all eight fields |
| `Persistence.Restore` | src/App.jsx:88-95 | the restored difficulty is never 0 and is the saved one when that is non-zero; a boolean is on only when saved as true, except `showStart`, which is off only when saved as false; counts, timer, trace and problem are the saved ones when present |
| `Persistence.RestoreSaveRoundTrip` | src/App.jsx:88-112 | saving then restoring gives back all eight fields when the difficulty is not 0 |
| `Persistence.RestoreZeroDifficulty` | src/App.jsx:91 | a saved difficulty of 0 comes back as 1, and nothing else changes |
| `Persistence.RestoreEmptyIsInitial` | src/App.jsx:68-95 | a snapshot with every field missing restores the start-up defaults |
| `Persistence.RestoreMissingFields` | src/App.jsx:88-95 | each missing field takes its default (trace `[]`, inactive, 0 questions, difficulty 1, start prompt shown, timer 0, a fresh problem, speech off) |
| `Persistence.RestoreKeepsShowStartFalse` | src/App.jsx:92 | a saved `showStart` of false is kept, because the field is tested for being missing, not for truthiness |
| `Persistence.RestoreKeepsAnswerCheck` | src/App.jsx:94 | with the operator stored as a tag, a restored problem is checked exactly like the saved one |
| `Persistence.ThroughJson` | src/App.jsx:103-112 | a JSON round trip keeps the operator's symbol and drops its function |
| `Persistence.ApplyBundled` | src/App.jsx:177 | applying the stored operator fails exactly when its function is missing |
| `Persistence.RestoredBundleCannotBeApplied` | src/App.jsx:94 | the table's operator applies its function, but the same operator after a save and reload cannot be applied |
| `Persistence.Rebind` | src/App.jsx:4-9 | looking the kept symbol up in the operations table gives an operator with that symbol and a function |
| `Persistence.RebindAfterJson` | src/App.jsx:94 | after a JSON round trip, rebinding the symbol gives back the saved operator, which applies exactly as before |
| `Session.Trainer.constructor` | src/App.jsx:68-81 | the initial state: idle, start prompt shown, no trace, 0 questions, difficulty 1, timers 0, speech off, a difficulty-1 problem |
| `Session.Trainer.RestoreCache` | src/App.jsx:84-97 | without a snapshot nothing changes; with one the eight fields become the restored ones, and a restored active session restarts the question timer |
| `Session.Trainer.StartSession` | src/App.jsx:148-159 | whatever came before: active, no start prompt, 0 questions, difficulty 1, empty trace, both timers 0, speech off, a difficulty-1 problem, answer and feedback cleared |
| `Session.Trainer.EnterAnswer` | src/App.jsx:302 | typing sets the answer and changes nothing else |
| `Session.Trainer.SetSpeechMode` | src/App.jsx:262 | the checkbox sets speech mode and changes nothing else |
| `Session.Trainer.HandleSubmit` | src/App.jsx:175-209 | the feedback follows the answer check; in a session exactly one entry is appended, earlier entries are untouched and one advance is scheduled; outside a session the trace is unchanged and nothing is scheduled |
| `Session.Trainer.KeyDown` | src/App.jsx:232-236 | Enter with a non-empty answer submits; anything else changes nothing |
| `Session.Trainer.NextProblem` | src/App.jsx:211-230 | in a session the count rises by one, the difficulty follows `NextDifficulty` (never falling from a non-negative whole-hundredths value, staying at least 1 once there), and the new problem is generated at it; outside a session the count, difficulty and trace stay and the problem is a difficulty-1 one; both clear the answer, feedback and question timer |
| `Session.Trainer.FireAdvance` | src/App.jsx:205-207 | a pending feedback delay running out performs one `NextProblem`; with none pending nothing changes |
| `Session.Trainer.SessionTick` | src/App.jsx:117-126 | the session timer counts one second during a session and nothing otherwise; the question timer is untouched |
| `Session.Trainer.QuestionTick` | src/App.jsx:129-139 | the question timer counts one second during a session and nothing otherwise |

## Left out

- Rendering, styling and the widgets (src/App.jsx:248-335) are presentation. The answer
  box's change handler and the speech checkbox are kept as `EnterAnswer` and `SetSpeechMode`.
  The browser's `required` check, which stops an empty form from being submitted, is not modelled.
- `localStorage` and `JSON.stringify`/`JSON.parse` are I/O. The snapshot is a record, and a parsed
  snapshot is a record of optional fields. JSON values of other types (null, strings where numbers
  belong, NaN) cannot be represented. Neither can a symbol outside the four operators, which is why
  `getSpokenOperation`'s default branch (src/App.jsx:51-52) has no counterpart.
- `startSession` also writes its own snapshot with a second, different random problem
  (src/App.jsx:160-172). The save that follows every render overwrites it, so this write is left out.
- `setInterval`, `setTimeout` and `clearInterval` are scheduling. Each tick and each delayed advance
  is an explicit call. The question timer's restart when the problem changes
  (src/App.jsx:129-131) is folded into the methods that replace the problem.
- React's captured state is not modelled. The delayed `nextProblem` sees the state from its
  submission, while `FireAdvance` reads the current state, because transitions here run one after another.
  A user can observe the difference. Two submissions within the one-second feedback delay record two
  entries in both. In the source, both delayed calls captured the same count, so `questionsAnswered`
  rises by 1 and the problem is replaced twice. In the model, the two `FireAdvance` calls raise it
  by 2 (5 becomes 7). Every later escalation point shifts accordingly.
- `Trainer.RestoreCache` and `Trainer.HandleSubmit` follow the corrected half of the finding below:
  the problem keeps its operator as a tag, so a restored problem is checked normally. In the source,
  the answer check on a restored problem throws at src/App.jsx:177.
- `Math.random` is a foreign source. Its values are the `Draws` parameters.
- Floating point is not modelled. `toFixed` and the arithmetic are done on exact rationals. Binary
  representation effects are absent (for the double nearest 1.005, `toFixed(2)` gives 1.00, while
  `Round2` gives 1.01), and so is loss of precision for operands above 2^53. `Number()` string parsing
  is not modelled either: the parsed answer is a parameter.
- The Web Speech API calls (src/App.jsx:57-65) and the narration effect (src/App.jsx:142-146) are a browser
  capability. So is the `speechSupported` flag. Only the sentence, `getSpokenOperation`, is modelled.

## Findings

| source | as written | input that shows it | evidently intended | confidence | as-written member | corrected member |
|---|---|---|---|---|---|---|
| src/App.jsx:94 | the saved problem holds `op: {symbol, fn}`; `JSON.stringify` drops the function, so the restored `problem.op.fn(...)` throws a TypeError in `handleSubmit` (src/App.jsx:177); in a restored active session no entry is recorded, nothing advances, and there is neither a start nor a next button, so the learner is stuck on that problem | start a session, reload the page, submit any answer | a restored problem is checked like the one that was saved | high; not executed | `Persistence.RestoredBundleCannotBeApplied` | `Persistence.RestoreKeepsAnswerCheck` |
