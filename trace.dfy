/**
 * The trace of answered problems and its display order: mistakes first, then
 * correct answers, each group by time spent, longest first.
 */
module Trace {
  import opened Wrappers
  import opened Numerals
  import opened Operators
  import opened Problems

  /** One answered problem, as appended by a submission during a session. */
  datatype TraceEntry = TraceEntry(
    question: string,
    operation: string,
    a: int,
    b: int,
    operator: string,
    userAnswer: string,
    correct: Option<real>,
    isCorrect: bool,
    time: nat)

  /** The problem as the trace shows it, e.g. "12 × 3". */
  function QuestionText(p: Problem): string {
    IntToString(p.a) + " " + Symbol(p.op) + " " + IntToString(p.b)
  }

  /** The question text names the problem: different problems are shown differently. */
  lemma QuestionTextNamesProblem(p: Problem, q: Problem)
    ensures QuestionText(p) == QuestionText(q) ==> p == q
  {
    if QuestionText(p) == QuestionText(q) {
      var s := QuestionText(p);
      var r1 := Symbol(p.op) + " " + IntToString(p.b);
      var r2 := Symbol(q.op) + " " + IntToString(q.b);
      NumeralHasNoSpace(p.a);
      NumeralHasNoSpace(q.a);
      assert s == IntToString(p.a) + " " + r1;
      assert s == IntToString(q.a) + " " + r2;
      SplitAtFirstSpace(IntToString(p.a), r1, IntToString(q.a), r2);
      assert r1[0] == Symbol(p.op)[0] && r2[0] == Symbol(q.op)[0];
      assert IntToString(p.b) == r1[2..] && IntToString(q.b) == r2[2..];
      IntToStringInjective(p.a, q.a);
      IntToStringInjective(p.b, q.b);
    }
  }

  /** The entry recorded for problem `p`, typed answer `raw` (read as `user`) after `time` seconds. */
  function Entry(p: Problem, raw: string, user: Option<real>, time: nat): (e: TraceEntry)
    ensures e.isCorrect == IsCorrect(p, user) && e.correct == CorrectAnswer(p)
    ensures e.a == p.a && e.b == p.b && e.operator == Symbol(p.op) && e.operation == Name(p.op)
    ensures e.userAnswer == raw && e.time == time && e.question == QuestionText(p)
  {
    TraceEntry(QuestionText(p), Name(p.op), p.a, p.b, Symbol(p.op), raw,
               CorrectAnswer(p), IsCorrect(p, user), time)
  }

  /** The sort comparator: negative when `x` is shown before `y`. */
  function Compare(x: TraceEntry, y: TraceEntry): (c: int)
    ensures x.isCorrect != y.isCorrect ==> (c < 0 <==> !x.isCorrect)
    ensures x.isCorrect == y.isCorrect ==> (c < 0 <==> x.time > y.time) && (c == 0 <==> x.time == y.time)
  {
    if x.isCorrect == y.isCorrect then y.time - x.time
    else if x.isCorrect then 1 else -1
  }

  /** The comparator is antisymmetric: swapping the entries flips the sign. */
  lemma CompareAntisymmetric(x: TraceEntry, y: TraceEntry)
    ensures Compare(x, y) == 0 <==> Compare(y, x) == 0
    ensures Compare(x, y) < 0 <==> Compare(y, x) > 0
  {
  }

  /** `x` may be shown before `y`. */
  predicate InOrder(x: TraceEntry, y: TraceEntry) {
    Compare(x, y) <= 0
  }

  predicate Sorted(s: seq<TraceEntry>) {
    forall i, j :: 0 <= i < j < |s| ==> InOrder(s[i], s[j])
  }

  /** Puts `x` before the first entry it may precede; entries equal to it in order stay after it. */
  function Insert(x: TraceEntry, s: seq<TraceEntry>): (r: seq<TraceEntry>)
    requires Sorted(s)
    ensures Sorted(r)
    ensures multiset(r) == multiset(s) + multiset{x}
  {
    if s == [] || InOrder(x, s[0]) then
      InOrderTransitive(x, s);
      [x] + s
    else
      var t := Insert(x, s[1..]);
      assert s == [s[0]] + s[1..];
      FirstPrecedesAll(s[0], x, s[1..], t);
      [s[0]] + t
  }

  /** An entry in order before the head of a sorted sequence is in order before all of it. */
  lemma InOrderTransitive(x: TraceEntry, s: seq<TraceEntry>)
    requires Sorted(s) && (s == [] || InOrder(x, s[0]))
    ensures Sorted([x] + s)
  {
  }

  lemma FirstPrecedesAll(h: TraceEntry, x: TraceEntry, s: seq<TraceEntry>, t: seq<TraceEntry>)
    requires Sorted([h] + s) && !InOrder(x, h)
    requires Sorted(t) && multiset(t) == multiset(s) + multiset{x}
    ensures Sorted([h] + t)
  {
    forall k | 0 <= k < |t| ensures InOrder(h, t[k]) {
      assert t[k] in multiset(t);
      if t[k] != x {
        assert t[k] in multiset(s);
        var i :| 0 <= i < |s| && s[i] == t[k];
        assert ([h] + s)[0] == h && ([h] + s)[i + 1] == s[i];
        assert InOrder(([h] + s)[0], ([h] + s)[i + 1]);
      } else {
        assert Compare(h, x) <= 0;
      }
    }
  }

  /**
   * `[...trace].sort(comparator)`: a stable sort (entries that compare equal keep
   * their chronological order).
   */
  function SortedTrace(s: seq<TraceEntry>): (r: seq<TraceEntry>)
    ensures Sorted(r)
    ensures multiset(r) == multiset(s)
  {
    if s == [] then []
    else
      assert s == [s[0]] + s[1..];
      Insert(s[0], SortedTrace(s[1..]))
  }

  /** What the order means: every mistake before every correct answer, longer times first. */
  lemma SortedMeansMistakesFirst(s: seq<TraceEntry>, i: int, j: int)
    requires Sorted(s) && 0 <= i < j < |s|
    ensures s[i].isCorrect ==> s[j].isCorrect
    ensures s[i].isCorrect == s[j].isCorrect ==> s[i].time >= s[j].time
  {
  }

  /** The entries of `s` with a given correctness and time, in their order in `s`. */
  function WithKey(s: seq<TraceEntry>, isCorrect: bool, time: int): (r: seq<TraceEntry>)
    ensures |r| <= |s|
  {
    if s == [] then []
    else (if s[0].isCorrect == isCorrect && s[0].time == time then [s[0]] else [])
         + WithKey(s[1..], isCorrect, time)
  }

  function KeyPart(e: TraceEntry, c: bool, t: int): seq<TraceEntry> {
    if e.isCorrect == c && e.time == t then [e] else []
  }

  lemma WithKeyCons(e: TraceEntry, s: seq<TraceEntry>, c: bool, t: int)
    ensures WithKey([e] + s, c, t) == KeyPart(e, c, t) + WithKey(s, c, t)
  {
    assert ([e] + s)[1..] == s;
  }

  lemma {:induction false} InsertKeepsKeyOrder(x: TraceEntry, s: seq<TraceEntry>, c: bool, t: int)
    requires Sorted(s)
    ensures WithKey(Insert(x, s), c, t) == KeyPart(x, c, t) + WithKey(s, c, t)
  {
    if s == [] || InOrder(x, s[0]) {
      WithKeyCons(x, s, c, t);
    } else {
      var t' := Insert(x, s[1..]);
      assert Insert(x, s) == [s[0]] + t';
      InsertKeepsKeyOrder(x, s[1..], c, t);
      WithKeyCons(s[0], t', c, t);
      WithKeyCons(s[0], s[1..], c, t);
      assert s == [s[0]] + s[1..];
      assert KeyPart(x, c, t) == [] || KeyPart(s[0], c, t) == [];
    }
  }

  /** The sort is stable: entries with the same correctness and time keep their order. */
  lemma {:induction false} SortIsStable(s: seq<TraceEntry>, c: bool, t: int)
    ensures WithKey(SortedTrace(s), c, t) == WithKey(s, c, t)
  {
    if s != [] {
      SortIsStable(s[1..], c, t);
      InsertKeepsKeyOrder(s[0], SortedTrace(s[1..]), c, t);
    }
  }

  /** The example order: mistakes at 2 s and 7 s and a correct answer at 10 s, whatever the problems. */
  lemma ExampleOrder(e: TraceEntry)
    ensures var f2, t10, f7 := e.(isCorrect := false, time := 2), e.(isCorrect := true, time := 10),
      e.(isCorrect := false, time := 7);
      SortedTrace([f2, t10, f7]) == [f7, f2, t10]
  {
    var f2, t10, f7 := e.(isCorrect := false, time := 2), e.(isCorrect := true, time := 10),
      e.(isCorrect := false, time := 7);
    assert [f2, t10, f7][1..] == [t10, f7];
    CorrectAfterMistake(t10, f7);
    LongerMistakeFirst(f2, f7, t10);
  }

  /** Sorting a correct answer followed by a mistake puts the mistake first. */
  lemma CorrectAfterMistake(t: TraceEntry, f: TraceEntry)
    requires t.isCorrect && !f.isCorrect
    ensures SortedTrace([t, f]) == [f, t]
  {
    assert [t, f][1..] == [f];
    assert Insert(t, [f]) == [f] + Insert(t, []);
  }

  /** A shorter mistake goes after a longer one and before the correct answers. */
  lemma LongerMistakeFirst(x: TraceEntry, f: TraceEntry, t: TraceEntry)
    requires !x.isCorrect && !f.isCorrect && x.time < f.time && t.isCorrect
    ensures Sorted([f, t]) && Insert(x, [f, t]) == [f, x, t]
  {
    assert [f, t][1..] == [t];
    assert Insert(x, [t]) == [x, t];
  }
}
