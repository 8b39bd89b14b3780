/**
 * The four arithmetic operators of the trainer: the `operations` table,
 * `operationNames`, the operator functions and the spoken rendering.
 */
module Operators {
  import opened Wrappers
  import opened Numerals

  /** The operator as a closed tag; its function is `Eval`. */
  datatype Op = Add | Sub | Mul | Div

  /** Number of entries of the operations table. */
  const OperationCount: nat := 4

  /** The entry at a position of the operations table. */
  function OperatorAt(i: int): Op
    requires 0 <= i < OperationCount
  {
    if i == 0 then Add else if i == 1 then Sub else if i == 2 then Mul else Div
  }

  /** The position of an operator in the operations table. */
  function IndexOf(op: Op): (i: nat)
    ensures i < OperationCount && OperatorAt(i) == op
  {
    match op
    case Add => 0
    case Sub => 1
    case Mul => 2
    case Div => 3
  }

  function Symbol(op: Op): string {
    match op
    case Add => "+"
    case Sub => "-"
    case Mul => "×"
    case Div => "÷"
  }

  /** The operator a symbol stands for; unknown symbols stand for none. */
  function FromSymbol(s: string): (r: Option<Op>)
    ensures r.Some? ==> Symbol(r.value) == s
  {
    if s == "+" then Some(Add)
    else if s == "-" then Some(Sub)
    else if s == "×" then Some(Mul)
    else if s == "÷" then Some(Div)
    else None
  }

  lemma SymbolRoundTrip(op: Op)
    ensures FromSymbol(Symbol(op)) == Some(op)
  {
  }

  /** The `operationNames` table. */
  function Name(op: Op): string {
    match op
    case Add => "Addition"
    case Sub => "Subtraction"
    case Mul => "Multiplication"
    case Div => "Division"
  }

  /** Each operator has its own name. */
  lemma NameIdentifiesOperator(op1: Op, op2: Op)
    ensures Name(op1) == Name(op2) ==> op1 == op2
  {
    assert Name(op1)[0] == Name(op2)[0] ==> op1 == op2;
  }

  /**
   * The operator's function on the two operands. Division by zero gives a
   * non-finite number in the source (Infinity or NaN); that is `None` here.
   */
  function Eval(op: Op, a: int, b: int): (r: Option<real>)
    ensures (r == None) <==> (op == Div && b == 0)
    ensures op == Div && b != 0 ==> r.value * (b as real) == a as real
    ensures op == Div && b != 0 && a % b == 0 ==> r.value == (a / b) as real
  {
    match op
    case Add => Some((a + b) as real)
    case Sub => Some((a - b) as real)
    case Mul => Some((a * b) as real)
    case Div =>
      if b == 0 then None
      else
        assert a == (a / b) * b + a % b;
        Some(a as real / b as real)
  }

  /** The word the narration uses for an operator. */
  function SpokenWord(op: Op): string {
    match op
    case Add => "plus"
    case Sub => "minus"
    case Mul => "times"
    case Div => "divided by"
  }

  /** The sentence read aloud for a problem, e.g. "What is 7 plus 5?". */
  function SpokenOperation(a: int, op: Op, b: int): (s: string)
    ensures |s| > 9 && s[..8] == "What is " && s[|s| - 1] == '?'
  {
    "What is " + IntToString(a) + " " + SpokenWord(op) + " " + IntToString(b) + "?"
  }

  /** The sentences for 7 and 5, one per operator. */
  lemma SpokenExamples()
    ensures SpokenOperation(7, Add, 5) == "What is 7 plus 5?"
    ensures SpokenOperation(7, Sub, 5) == "What is 7 minus 5?"
    ensures SpokenOperation(7, Mul, 5) == "What is 7 times 5?"
    ensures SpokenOperation(7, Div, 5) == "What is 7 divided by 5?"
  {
    SmallNumerals();
  }

  lemma SmallNumerals()
    ensures IntToString(7) == "7" && IntToString(5) == "5"
  {
  }

  /** The sentence names the operator: its four words start with different letters. */
  lemma SpokenOperationNamesOperator(a: int, op1: Op, op2: Op, b: int)
    ensures SpokenOperation(a, op1, b) == SpokenOperation(a, op2, b) ==> op1 == op2
  {
    var k := 8 + |IntToString(a)| + 1;
    assert SpokenOperation(a, op1, b)[k] == SpokenWord(op1)[0];
    assert SpokenOperation(a, op2, b)[k] == SpokenWord(op2)[0];
  }

  /** The sentence names both operands: they can be read back from it. */
  lemma SpokenOperationNamesOperands(a1: int, a2: int, op: Op, b1: int, b2: int)
    ensures SpokenOperation(a1, op, b1) == SpokenOperation(a2, op, b2) ==> a1 == a2 && b1 == b2
  {
    if SpokenOperation(a1, op, b1) == SpokenOperation(a2, op, b2) {
      NumeralHasNoSpace(a1);
      NumeralHasNoSpace(a2);
      SentenceParts(IntToString(a1), IntToString(a2), SpokenWord(op), IntToString(b1), IntToString(b2));
      IntToStringInjective(a1, a2);
      IntToStringInjective(b1, b2);
    }
  }

  predicate NoSpace(t: string) {
    forall i :: 0 <= i < |t| ==> t[i] != ' '
  }

  lemma NumeralHasNoSpace(n: int)
    ensures NoSpace(IntToString(n))
  {
  }

  lemma SentenceParts(t1: string, t2: string, w: string, u1: string, u2: string)
    requires NoSpace(t1) && NoSpace(t2)
    requires "What is " + t1 + " " + w + " " + u1 + "?" == "What is " + t2 + " " + w + " " + u2 + "?"
    ensures t1 == t2 && u1 == u2
  {
    var s1 := "What is " + t1 + " " + w + " " + u1 + "?";
    var s2 := "What is " + t2 + " " + w + " " + u2 + "?";
    var r1, r2 := w + " " + u1 + "?", w + " " + u2 + "?";
    assert s1[8..] == t1 + " " + r1;
    assert s2[8..] == t2 + " " + r2;
    SplitAtFirstSpace(t1, r1, t2, r2);
    assert u1 == r1[|w| + 1..|r1| - 1];
    assert u2 == r2[|w| + 1..|r2| - 1];
  }

  /** A word without spaces is recovered from the text it starts, up to the first space. */
  lemma SplitAtFirstSpace(t1: string, r1: string, t2: string, r2: string)
    requires NoSpace(t1) && NoSpace(t2)
    requires t1 + " " + r1 == t2 + " " + r2
    ensures t1 == t2 && r1 == r2
  {
    var s := t1 + " " + r1;
    FirstSpaceAfterWord(t1, r1);
    FirstSpaceAfterWord(t2, r2);
    assert t1 == s[..|t1|] == t2;
    assert r1 == s[|t1| + 1..] == r2;
  }

  /** Position of the first space of a text, or its length if it has none. */
  function FirstSpace(s: string): (k: nat)
    ensures k <= |s|
  {
    if s == [] || s[0] == ' ' then 0 else 1 + FirstSpace(s[1..])
  }

  lemma {:induction false} FirstSpaceAfterWord(t: string, r: string)
    requires NoSpace(t)
    ensures FirstSpace(t + " " + r) == |t|
  {
    if t != [] {
      assert (t + " " + r)[1..] == t[1..] + " " + r;
      FirstSpaceAfterWord(t[1..], r);
    }
  }
}
