/**
 * The persisted session snapshot: what is saved after every change and how a
 * saved snapshot is read back on start-up, field by field with `||` defaults.
 * The storage slot and the JSON text are not modelled, only the record.
 */
module Persistence {
  import opened Wrappers
  import opened Operators
  import opened Problems
  import opened Trace

  /** The eight saved fields. */
  datatype Snapshot = Snapshot(
    trace: seq<TraceEntry>,
    sessionActive: bool,
    questionsAnswered: nat,
    difficulty: real,
    showStart: bool,
    sessionTimer: nat,
    problem: Problem,
    speechMode: bool)

  /** A parsed snapshot: each field may be missing. */
  datatype StoredSnapshot = StoredSnapshot(
    trace: Option<seq<TraceEntry>>,
    sessionActive: Option<bool>,
    questionsAnswered: Option<nat>,
    difficulty: Option<real>,
    showStart: Option<bool>,
    sessionTimer: Option<nat>,
    problem: Option<Problem>,
    speechMode: Option<bool>)

  /** The state the trainer starts in before anything is restored, around its first problem. */
  function InitialSnapshot(p: Problem): Snapshot {
    Snapshot([], false, 0, 1.0, true, 0, p, false)
  }

  /** Saving writes every field. */
  function Save(s: Snapshot): (st: StoredSnapshot)
    ensures st.trace.Some? && st.sessionActive.Some? && st.questionsAnswered.Some?
    ensures st.difficulty.Some? && st.showStart.Some? && st.sessionTimer.Some?
    ensures st.problem.Some? && st.speechMode.Some?
  {
    StoredSnapshot(Some(s.trace), Some(s.sessionActive), Some(s.questionsAnswered),
                   Some(s.difficulty), Some(s.showStart), Some(s.sessionTimer),
                   Some(s.problem), Some(s.speechMode))
  }

  /** JavaScript's `v || d` for a field that may be missing: `d` unless `v` is present and truthy. */
  function Or<T>(v: Option<T>, truthy: T -> bool, d: T): (r: T)
    ensures v.None? ==> r == d
    ensures v.Some? && truthy(v.value) ==> r == v.value
    ensures v.Some? && !truthy(v.value) ==> r == d
  {
    if v.Some? && truthy(v.value) then v.value else d
  }

  /**
   * Reading a snapshot back. Arrays and objects are always truthy; a boolean is
   * truthy when true, a number when non-zero. `showStart` is the one field tested
   * for being missing rather than for truthiness. `fallback` is the problem
   * generated when none was saved.
   */
  function Restore(st: StoredSnapshot, fallback: Problem): (s: Snapshot)
    ensures s.difficulty != 0.0
    ensures st.difficulty.Some? && st.difficulty.value != 0.0 ==> s.difficulty == st.difficulty.value
    ensures s.sessionActive <==> st.sessionActive == Some(true)
    ensures s.speechMode <==> st.speechMode == Some(true)
    ensures s.showStart <==> st.showStart != Some(false)
    ensures st.questionsAnswered.Some? ==> s.questionsAnswered == st.questionsAnswered.value
    ensures st.sessionTimer.Some? ==> s.sessionTimer == st.sessionTimer.value
    ensures st.trace.Some? ==> s.trace == st.trace.value
    ensures st.problem.Some? ==> s.problem == st.problem.value
  {
    Snapshot(
      Or(st.trace, _ => true, []),
      Or(st.sessionActive, b => b, false),
      Or(st.questionsAnswered, (n: nat) => n != 0, 0),
      Or(st.difficulty, (d: real) => d != 0.0, 1.0),
      if st.showStart.Some? then st.showStart.value else true,
      Or(st.sessionTimer, (n: nat) => n != 0, 0),
      Or(st.problem, _ => true, fallback),
      Or(st.speechMode, b => b, false))
  }

  /** Save then restore gives back every saved field, provided the difficulty is not 0. */
  lemma RestoreSaveRoundTrip(s: Snapshot, fallback: Problem)
    requires s.difficulty != 0.0
    ensures Restore(Save(s), fallback) == s
  {
  }

  /** A saved difficulty of 0 is read back as 1 (`0 || 1`); nothing else is lost. */
  lemma RestoreZeroDifficulty(s: Snapshot, fallback: Problem)
    requires s.difficulty == 0.0
    ensures Restore(Save(s), fallback) == s.(difficulty := 1.0)
  {
  }

  /** A snapshot with every field missing restores the start-up defaults. */
  lemma RestoreEmptyIsInitial(fallback: Problem)
    ensures Restore(StoredSnapshot(None, None, None, None, None, None, None, None), fallback)
      == InitialSnapshot(fallback)
  {
  }

  /** Each missing field takes its default, whatever the others hold. */
  lemma RestoreMissingFields(st: StoredSnapshot, fallback: Problem)
    ensures var s := Restore(st, fallback);
      && (st.trace.None? ==> s.trace == [])
      && (st.sessionActive.None? ==> !s.sessionActive)
      && (st.questionsAnswered.None? ==> s.questionsAnswered == 0)
      && (st.difficulty.None? ==> s.difficulty == 1.0)
      && (st.showStart.None? ==> s.showStart)
      && (st.sessionTimer.None? ==> s.sessionTimer == 0)
      && (st.problem.None? ==> s.problem == fallback)
      && (st.speechMode.None? ==> !s.speechMode)
  {
  }

  /** `showStart` keeps a saved `false`: it is tested for presence, not truthiness. */
  lemma RestoreKeepsShowStartFalse(st: StoredSnapshot, fallback: Problem)
    requires st.showStart == Some(false)
    ensures !Restore(st, fallback).showStart
  {
  }

  /** A restored problem is checked exactly like the problem that was saved. */
  lemma RestoreKeepsAnswerCheck(s: Snapshot, fallback: Problem, user: Option<real>)
    ensures IsCorrect(Restore(Save(s), fallback).problem, user) == IsCorrect(s.problem, user)
  {
  }

  // ---- The operator as the source stores it -----------------------------------

  /**
   * An entry of the source's `operations` table: a symbol bundled with a function
   * value (`fn`, `None` once the function is gone).
   */
  datatype BundledOperator = BundledOperator(symbol: string, fn: Option<Op>)

  function Bundle(op: Op): BundledOperator {
    BundledOperator(Symbol(op), Some(op))
  }

  /** A JSON round trip keeps the symbol and drops the function-valued property. */
  function ThroughJson(o: BundledOperator): (r: BundledOperator)
    ensures r.symbol == o.symbol && r.fn.None?
  {
    BundledOperator(o.symbol, None)
  }

  /** `problem.op.fn(problem.a, problem.b)`: a missing function throws a TypeError. */
  function ApplyBundled(o: BundledOperator, a: int, b: int): (r: Result<Option<real>, string>)
    ensures r.Failure? <==> o.fn.None?
  {
    match o.fn
    case Some(f) => Success(Eval(f, a, b))
    case None => Failure("problem.op.fn is not a function")
  }

  /**
   * As written, the answer check fails on every restored problem: the saved problem's
   * operator comes back without its function.
   */
  lemma RestoredBundleCannotBeApplied(op: Op, a: int, b: int)
    ensures ApplyBundled(Bundle(op), a, b) == Success(Eval(op, a, b))
    ensures ApplyBundled(ThroughJson(Bundle(op)), a, b).Failure?
  {
  }

  /**
   * The symbol survives the JSON round trip, so looking it up in the operations
   * table rebuilds the full operator; an unknown symbol rebuilds nothing.
   */
  function Rebind(o: BundledOperator): (r: Option<BundledOperator>)
    ensures r.Some? ==> r.value.symbol == o.symbol && r.value.fn.Some?
  {
    match FromSymbol(o.symbol)
    case Some(op) => Some(Bundle(op))
    case None => None
  }

  /** Rebinding after the round trip gives back the saved operator, and it applies again. */
  lemma RebindAfterJson(op: Op, a: int, b: int)
    ensures Rebind(ThroughJson(Bundle(op))) == Some(Bundle(op))
    ensures ApplyBundled(Rebind(ThroughJson(Bundle(op))).value, a, b) == Success(Eval(op, a, b))
  {
    SymbolRoundTrip(op);
  }
}
