/**
 * Difficulty progression: every 20th answered question multiplies the difficulty
 * by 1.3, rounded to two decimals (`Number((difficulty * 1.3).toFixed(2))`).
 */
module Difficulty {
  import opened Numerals

  const EscalationPeriod: nat := 20

  /** One escalation step. */
  function Escalate(d: real): (r: real)
    ensures IsHundredths(r)
    ensures d >= 0.0 && IsHundredths(d) ==> r >= d
    ensures d >= 1.0 ==> r > d
  {
    assert d >= 0.0 && IsHundredths(d) ==> (d * 1.3) * 100.0 + 0.5 >= (d * 100.0).Floor as real;
    Round2(d * 1.3)
  }

  /** The difficulty after advancing past question number `count + 1`. */
  function NextDifficulty(count: nat, d: real): (r: real)
    ensures (count + 1) % EscalationPeriod == 0 ==> r == Escalate(d)
    ensures (count + 1) % EscalationPeriod != 0 ==> r == d
  {
    if (count + 1) % EscalationPeriod == 0 then Escalate(d) else d
  }

  /** `m` escalation steps in a row. */
  function Escalations(d: real, m: nat): real
    decreases m
  {
    if m == 0 then d else Escalations(Escalate(d), m - 1)
  }

  /** The difficulty after `k` advances, starting from count `count` and difficulty `d`. */
  function DifficultyAfter(count: nat, d: real, k: nat): real
    decreases k
  {
    if k == 0 then d else DifficultyAfter(count + 1, NextDifficulty(count, d), k - 1)
  }

  /** Difficulty never decreases over any number of advances (from a non-negative start). */
  lemma {:induction false} DifficultyNeverDecreases(count: nat, d: real, k: nat)
    requires d >= 0.0 && IsHundredths(d)
    ensures DifficultyAfter(count, d, k) >= d
    decreases k
  {
    if k > 0 {
      DifficultyNeverDecreases(count + 1, NextDifficulty(count, d), k - 1);
    }
  }

  /**
   * The difficulty changes only at multiples of 20: after `k` advances from count
   * `count` it has escalated once per multiple of 20 passed, and no more.
   */
  lemma {:induction false} DifficultyAfterCountsMultiples(count: nat, d: real, k: nat)
    ensures DifficultyAfter(count, d, k) ==
      Escalations(d, (count + k) / EscalationPeriod - count / EscalationPeriod)
    decreases k
  {
    if k > 0 {
      var d' := NextDifficulty(count, d);
      DifficultyAfterCountsMultiples(count + 1, d', k - 1);
      var m := (count + k) / EscalationPeriod - (count + 1) / EscalationPeriod;
      if (count + 1) % EscalationPeriod == 0 {
        assert (count + 1) / EscalationPeriod == count / EscalationPeriod + 1;
      } else {
        assert (count + 1) / EscalationPeriod == count / EscalationPeriod;
      }
    }
  }

  /** Strictly increasing escalations from a difficulty of at least 1. */
  lemma {:induction false} EscalationsGrow(d: real, m: nat)
    requires d >= 1.0
    ensures Escalations(d, m + 1) > Escalations(d, m) >= d
    decreases m
  {
    if m > 0 {
      EscalationsGrow(Escalate(d), m - 1);
    }
  }

  /** A session of 45 questions: 1.3 after question 20, 1.69 after 40, still 1.69 at 45. */
  lemma FortyFiveQuestions()
    ensures DifficultyAfter(0, 1.0, 19) == 1.0
    ensures DifficultyAfter(0, 1.0, 20) == 1.3
    ensures DifficultyAfter(0, 1.0, 40) == 1.69
    ensures DifficultyAfter(0, 1.0, 45) == 1.69
  {
    DifficultyAfterCountsMultiples(0, 1.0, 19);
    DifficultyAfterCountsMultiples(0, 1.0, 20);
    DifficultyAfterCountsMultiples(0, 1.0, 40);
    DifficultyAfterCountsMultiples(0, 1.0, 45);
    Round2Exact(1.3);
    Round2Exact(1.69);
    assert Escalate(1.0) == 1.3;
    assert Escalate(1.3) == 1.69;
  }
}
