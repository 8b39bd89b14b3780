/**
 * Problem generation and answer checking. The random source is replaced by the
 * values it produced: a draw is the value of `Math.floor(Math.random() * span)`.
 */
module Problems {
  import opened Wrappers
  import opened Numerals
  import opened Operators

  datatype Problem = Problem(a: int, b: int, op: Op)

  /** The three draws `generateProblem` makes: operator position, first and second operand. */
  datatype Draws = Draws(opIndex: int, x: int, y: int)

  /**
   * What `Math.floor(Math.random() * span)` can be: `0 <= k < span` for a positive
   * span, `0` for an empty one, and `span <= k <= 0` for a negative one.
   */
  predicate DrawFits(span: int, k: int) {
    if span > 0 then 0 <= k < span else span <= k <= 0
  }

  /** `getRandomInt(lo, hi)` given the draw it made. */
  function RandomInt(lo: int, hi: int, k: int): (r: int)
    requires DrawFits(hi - lo + 1, k)
    ensures lo <= hi ==> lo <= r <= hi
    ensures hi < lo ==> hi + 1 <= r <= lo
  {
    k + lo
  }

  /** The largest operand at a difficulty: `Math.floor(20 * difficulty)`. */
  function MaxOperand(difficulty: real): int {
    (20.0 * difficulty).Floor
  }

  predicate DrawsFit(difficulty: real, dr: Draws) {
    && DrawFits(OperationCount, dr.opIndex)
    && DrawFits(MaxOperand(difficulty), dr.x)
    && DrawFits(MaxOperand(difficulty), dr.y)
  }

  /** Both operands lie in `[1, max]`. */
  predicate InRange(difficulty: real, n: int) {
    1 <= n <= MaxOperand(difficulty)
  }

  /** `generateProblem(difficulty)`: for division the first operand is the product. */
  function GenerateProblem(difficulty: real, dr: Draws): (p: Problem)
    requires DrawsFit(difficulty, dr)
    ensures p.op == OperatorAt(dr.opIndex)
    ensures MaxOperand(difficulty) >= 1 ==> InRange(difficulty, p.b)
    ensures MaxOperand(difficulty) >= 1 && p.op != Div ==> InRange(difficulty, p.a)
    ensures MaxOperand(difficulty) >= 0 ==> p.b >= 1
    ensures p.op == Div && p.b != 0 ==> p.a % p.b == 0
    ensures MaxOperand(difficulty) >= 1 && p.op == Div ==> InRange(difficulty, p.a / p.b)
  {
    var max := MaxOperand(difficulty);
    var op := OperatorAt(RandomInt(0, OperationCount - 1, dr.opIndex));
    var x := RandomInt(1, max, dr.x);
    var y := RandomInt(1, max, dr.y);
    if op == Div then
      DivisionIsExact(x, y);
      Problem(x * y, y, op)
    else Problem(x, y, op)
  }

  lemma DivisionIsExact(x: int, y: int)
    ensures y != 0 ==> (x * y) % y == 0 && (x * y) / y == x
  {
    if y != 0 {
      var q, r := (x * y) / y, (x * y) % y;
      assert (x - q) * y == r;
      NoMultipleBelowDivisor(x - q, y, r);
    }
  }

  /** The only multiple of `y` strictly between `-|y|` and `|y|` is zero. */
  lemma NoMultipleBelowDivisor(d: int, y: int, r: int)
    requires y != 0 && 0 <= r < (if y < 0 then -y else y) && d * y == r
    ensures d == 0
  {
  }

  /**
   * Every problem the rules allow can come out: any operator, any operands in
   * range (for division, any quotient and divisor in range).
   */
  lemma GenerateProblemCovers(difficulty: real, op: Op, x: int, y: int)
    requires InRange(difficulty, x) && InRange(difficulty, y)
    ensures exists dr :: (DrawsFit(difficulty, dr) &&
      GenerateProblem(difficulty, dr) == Problem(if op == Div then x * y else x, y, op))
  {
    var dr := Draws(IndexOf(op), x - 1, y - 1);
    assert DrawsFit(difficulty, dr);
  }

  // ---- Answer checking ------------------------------------------------------

  /** The answer the trainer expects; division is rounded to two decimals. */
  function CorrectAnswer(p: Problem): (r: Option<real>)
    ensures r.Some? <==> (p.op != Div || p.b != 0)
    ensures p.op == Div && r.Some? ==> IsHundredths(r.value)
  {
    var v := Eval(p.op, p.a, p.b);
    if p.op == Div && v.Some? then Some(Round2(v.value)) else v
  }

  /**
   * The learner's answer as compared: `user` is `Number(userAnswer)`, `None` when it
   * is not a number; for division it is rounded to two decimals as well.
   */
  function UserValue(p: Problem, user: Option<real>): (u: Option<real>)
    ensures u.Some? <==> user.Some?
    ensures p.op != Div ==> u == user
    ensures p.op == Div && u.Some? ==> IsHundredths(u.value) && u.value - 0.005 <= user.value <= u.value + 0.005
  {
    if p.op == Div && user.Some? then Some(Round2(user.value)) else user
  }

  /** `userVal === correct`: a non-number equals nothing, itself included. */
  function IsCorrect(p: Problem, user: Option<real>): (ok: bool)
    ensures ok ==> user.Some? && CorrectAnswer(p).Some?
  {
    var c, u := CorrectAnswer(p), UserValue(p, user);
    c.Some? && u.Some? && c.value == u.value
  }

  /** Without division the answer must be exactly the result. */
  lemma NonDivisionIsExact(p: Problem, v: real)
    requires p.op != Div
    ensures IsCorrect(p, Some(v)) <==> Some(v) == Eval(p.op, p.a, p.b)
  {
  }

  /**
   * With division the answer is accepted exactly when it rounds to the same
   * two decimals as the true quotient.
   */
  lemma DivisionAcceptsRounded(p: Problem, v: real)
    requires p.op == Div && p.b != 0
    ensures IsCorrect(p, Some(v)) <==> Round2(v) == Round2(p.a as real / p.b as real)
  {
  }

  /** The answer the trainer shows as correct is accepted when typed in. */
  lemma ShownAnswerIsAccepted(p: Problem)
    requires CorrectAnswer(p).Some?
    ensures IsCorrect(p, CorrectAnswer(p))
  {
    if p.op == Div {
      Round2Idempotent(p.a as real / p.b as real);
    }
  }

  /** Division problems that were generated have a whole quotient, which rounding keeps. */
  lemma GeneratedDivisionAnswer(difficulty: real, dr: Draws)
    requires DrawsFit(difficulty, dr)
    requires GenerateProblem(difficulty, dr).op == Div
    requires MaxOperand(difficulty) >= 0
    ensures var p := GenerateProblem(difficulty, dr);
      CorrectAnswer(p) == Some((p.a / p.b) as real)
  {
    var p := GenerateProblem(difficulty, dr);
    IntIsHundredths(p.a / p.b);
    Round2Exact((p.a / p.b) as real);
  }

  /** 15 ÷ 4: the answer is 3.75; "3.75" and "3.749" are accepted, "3.8" is not. */
  lemma FifteenOverFour()
    ensures CorrectAnswer(Problem(15, 4, Div)) == Some(3.75)
    ensures IsCorrect(Problem(15, 4, Div), Some(3.75))
    ensures IsCorrect(Problem(15, 4, Div), Some(3.749))
    ensures !IsCorrect(Problem(15, 4, Div), Some(3.8))
    ensures !IsCorrect(Problem(15, 4, Div), None)
  {
  }

  /** What the learner is told after submitting: `✅ Correct!` or the correct answer. */
  datatype Feedback = NoFeedback | Right | Wrong(answer: Option<real>)

  function FeedbackFor(p: Problem, user: Option<real>): (f: Feedback)
    ensures f.Right? <==> IsCorrect(p, user)
    ensures f.Wrong? ==> f.answer == CorrectAnswer(p)
    ensures f != NoFeedback
  {
    if IsCorrect(p, user) then Right else Wrong(CorrectAnswer(p))
  }
}
