// Integer comparisons, conditional jumps and stored flags on the i486
// (cmd/gcc/i486.gen/insn-output.c), with the changes final makes to a condition when
// the flags are in a nonstandard state (alter_cond in cmd/gcc/src/final.c).

module I486Jump {
  import opened Arithmetic
  import opened Common
  import opened Control
  import opened Rtl
  import I486Select

  // --------------------------------------------------------------------------
  // What a program asks of the two values cc0 stands for

  predicate IsCondition(c: Code2) { c in {EQ, NE, GT, GTU, LT, LTU, GE, GEU, LE, LEU} }

  predicate Wanted(c: Code2, m: Mode, a: int, b: int) {
    var x, y := Signed(m, a), Signed(m, b);
    match c
    case EQ => a == b
    case NE => a != b
    case GT => x > y
    case GTU => a > b
    case LT => x < y
    case LTU => a < b
    case GE => x >= y
    case GEU => a >= b
    case LE => x <= y
    case LEU => a <= b
    case _ => false
  }

  // --------------------------------------------------------------------------
  // The processor's flags

  datatype Flags = Flags(carry: bool, zero: bool, sign: bool, overflow: bool)

  // cmp: x - y.
  function Compared(m: Mode, x: int, y: int): Flags {
    var half, r := Range(m) / 2, (x - y) % Range(m);
    var exact := Signed(m, x) - Signed(m, y);
    Flags(x < y, r == 0, r >= half, !(-half <= exact < half))
  }

  // tst, test and the logical instructions.
  function Tested(m: Mode, x: int): Flags { Flags(false, x == 0, x >= Range(m) / 2, false) }

  datatype Jump = JEQ | JNE | JGT | JHI | JLT | JLO | JGE | JHS | JLE | JLS | JMI | JPL

  predicate Holds(j: Jump, f: Flags) {
    match j
    case JEQ => f.zero
    case JNE => !f.zero
    case JGT => !f.zero && f.sign == f.overflow
    case JHI => !f.carry && !f.zero
    case JLT => f.sign != f.overflow
    case JLO => f.carry
    case JGE => f.sign == f.overflow
    case JHS => !f.carry
    case JLE => f.zero || f.sign != f.overflow
    case JLS => f.carry || f.zero
    case JMI => f.sign
    case JPL => !f.sign
  }

  // --------------------------------------------------------------------------
  // cc_status

  datatype Status = Status(reversed: bool, noOverflow: bool)

  datatype Operand = Register | Memory | Constant

  // Where cc0 comes from: a comparison (codes 5 to 7), a test (codes 0 to 2 and 10 to
  // 12), or an arithmetic insn whose result the deleted test would have tested.
  datatype Source =
    | Comparison(op0: Operand, op1: Operand, a: int, b: int)
    | Test(v: int)
    | Result(v: int, carry: bool, overflow: bool)

  function Left(s: Source): int { if s.Comparison? then s.a else s.v }

  function Right(s: Source): int { if s.Comparison? then s.b else 0 }

  // output_5 to output_7: the destination of cmp is a register or in memory.
  predicate Exchanges(op0: Operand, op1: Operand) { op1 == Register || op0 == Constant }

  function FlagsAfter(s: Source, m: Mode): Flags {
    match s
    case Comparison(op0, op1, a, b) => if Exchanges(op0, op1) then Compared(m, b, a) else Compared(m, a, b)
    case Test(v) => Tested(m, v)
    case Result(v, carry, overflow) => Tested(m, v).(carry := carry, overflow := overflow)
  }

  function StatusAfter(s: Source): Status {
    match s
    case Comparison(op0, op1, _, _) => Status(Exchanges(op0, op1), false)
    case Test(_) => Status(false, false)
    case Result(_, _, _) => Status(false, true)
  }

  // --------------------------------------------------------------------------
  // final

  function ReverseCond(c: Code2): Code2 {
    match c
    case LE => GE
    case GE => LE
    case LT => GT
    case GT => LT
    case LEU => GEU
    case GEU => LEU
    case LTU => GTU
    case GTU => LTU
    case _ => c
  }

  datatype Altered = Always | Never | Cond(code: Code2)

  // alter_cond, for the two flags the i486 sets among those it looks at.
  function AlterCond(c: Code2, s: Status): Altered {
    var d := if s.reversed then ReverseCond(c) else c;
    if !s.noOverflow then Cond(d)
    else match d
      case GEU => Always
      case LEU => Cond(EQ)
      case GTU => Cond(NE)
      case LTU => Never
      case _ => Cond(d)
  }

  // OUTPUT_JUMP, but for the floating-point template.
  function OutputJump(normal: Jump, noOv: Option<Jump>, s: Status): Option<Jump> {
    if s.noOverflow then noOv else Some(normal)
  }

  // The templates and output functions of codes 115 to 126, and of the stored flags,
  // codes 105 to 114, which test the same conditions.
  function Output(c: Code2, s: Status): Option<Jump> {
    match c
    case EQ => Some(JEQ)
    case NE => Some(JNE)
    case GT => OutputJump(JGT, None, s)
    case GTU => Some(JHI)
    case LT => OutputJump(JLT, Some(JMI), s)
    case LTU => Some(JLO)
    case GE => OutputJump(JGE, Some(JPL), s)
    case GEU => Some(JHS)
    case LE => OutputJump(JLE, None, s)
    case _ => Some(JLS)
  }

  // Codes 127 to 136: the label stands in the else arm.
  function OutputInverted(c: Code2, s: Status): Option<Jump> {
    match c
    case EQ => Some(JNE)
    case NE => Some(JEQ)
    case GT => OutputJump(JLE, None, s)
    case GTU => Some(JLS)
    case LT => OutputJump(JGE, Some(JPL), s)
    case LTU => Some(JHS)
    case GE => OutputJump(JLT, Some(JMI), s)
    case GEU => Some(JLO)
    case LE => OutputJump(JGT, None, s)
    case _ => Some(JHI)
  }

  // What becomes of a conditional jump: whether it goes to its label, or None when the
  // output function returns 0 and final goes back to the deleted test.
  function Taken(c: Code2, inverted: bool, s: Status, f: Flags): Option<bool> {
    match AlterCond(c, s)
    case Always => Some(!inverted)
    case Never => Some(inverted)
    case Cond(d) =>
      match if inverted then OutputInverted(d, s) else Output(d, s)
      case None => None
      case Some(j) => Some(Holds(j, f))
  }

  predicate InRange(s: Source, m: Mode) {
    0 <= Left(s) < Range(m) && 0 <= Right(s) < Range(m)
  }

  // --------------------------------------------------------------------------
  // Correctness

  // The constraint alternatives of codes 5 to 7.
  predicate ComparisonPermitted(op0: Operand, op1: Operand) {
    (op0 != Constant && op1 != Memory) || (op0 != Memory && op1 != Constant)
  }

  // What cmp subtracts from is no constant, is a register when there is one, and is not
  // in memory beside another operand in memory.
  lemma ComparisonEncodable(op0: Operand, op1: Operand)
    requires ComparisonPermitted(op0, op1)
    ensures var (src, dst) := if Exchanges(op0, op1) then (op0, op1) else (op1, op0);
      && dst != Constant && !(src == Memory && dst == Memory)
      && (dst == Register <==> op0 == Register || op1 == Register)
  {}

  // A comparison of x with y, in this order.
  lemma ComparedMeans(c: Code2, m: Mode, x: int, y: int)
    requires IsCondition(c) && 0 <= x < Range(m) && 0 <= y < Range(m)
    ensures Holds(Output(c, Status(false, false)).value, Compared(m, x, y)) <==> Wanted(c, m, x, y)
  {
    SignOfDifference(m, x, y);
  }

  lemma SignOfDifference(m: Mode, x: int, y: int)
    requires 0 <= x < Range(m) && 0 <= y < Range(m)
    ensures var f := Compared(m, x, y);
      && (f.zero <==> x == y)
      && (f.sign != f.overflow <==> Signed(m, x) < Signed(m, y))
  {
    hide Range;
    var r := Range(m);
    assert r == r / 2 * 2 by { RangeEven(m); }
    if x >= y {
      DivUnique(x - y, r, 0, x - y);
    } else {
      DivUnique(x - y, r, -1, x - y + r);
    }
  }

  lemma ReversedMeans(c: Code2, m: Mode, x: int, y: int)
    requires IsCondition(c)
    ensures IsCondition(ReverseCond(c)) && (Wanted(ReverseCond(c), m, y, x) <==> Wanted(c, m, x, y))
  {}

  // A value tested is a value compared with zero.
  lemma TestedMeans(m: Mode, v: int)
    requires 0 <= v < Range(m)
    ensures Tested(m, v) == Compared(m, v, 0)
  {}

  lemma InvertedHolds(c: Code2, s: Status, f: Flags)
    requires IsCondition(c)
    ensures OutputInverted(c, s).None? <==> Output(c, s).None?
    ensures Output(c, s).Some? ==> (Holds(OutputInverted(c, s).value, f) <==> !Holds(Output(c, s).value, f))
  {}

  // With carry and overflow unknown.
  lemma ResultMeans(c: Code2, m: Mode, v: int, f: Flags)
    requires IsCondition(c) && 0 <= v < Range(m)
    requires f.zero == (v == 0) && f.sign == (Signed(m, v) < 0)
    ensures var t := Taken(c, false, Status(false, true), f);
      && (t.None? <==> c == GT || c == LE)
      && (t.Some? ==> t.value == Wanted(c, m, v, 0))
  {
    hide Range;
    hide Signed;
    RangeEven(m);
    ZeroCompared(m, v);
  }

  lemma ZeroCompared(m: Mode, v: int)
    requires 0 <= v < Range(m)
    ensures Signed(m, 0) == 0 && (Signed(m, v) == 0 <==> v == 0)
  {}

  lemma InvertedTaken(c: Code2, s: Status, f: Flags)
    requires IsCondition(c)
    ensures var t, u := Taken(c, false, s, f), Taken(c, true, s, f);
      && (u.None? <==> t.None?) && (t.Some? ==> u.value == !t.value)
  {
    hide Holds;
    hide Output;
    hide OutputInverted;
    var a := AlterCond(c, s);
    if a.Cond? { InvertedHolds(a.code, s, f); }
  }

  // A jump on any of the ten conditions, its label in either arm, is taken exactly when
  // the program asks: after a comparison in either order, after a test, and after an
  // arithmetic insn whose flags stand for a deleted test, whatever its carry and
  // overflow.  Only there, and only for GT and LE, does the jump call the test back.
  lemma JumpTaken(c: Code2, inverted: bool, m: Mode, s: Source)
    requires IsCondition(c) && InRange(s, m)
    ensures var t := Taken(c, inverted, StatusAfter(s), FlagsAfter(s, m));
      && (t.None? <==> s.Result? && (c == GT || c == LE))
      && (t.Some? ==> t.value == (Wanted(c, m, Left(s), Right(s)) != inverted))
  {
    hide Wanted;
    hide Taken;
    PlainTaken(c, m, s);
    InvertedTaken(c, StatusAfter(s), FlagsAfter(s, m));
  }

  // With standard overflow a jump is the one of its condition, or of the reversed one.
  lemma StandardTaken(c: Code2, reversed: bool, f: Flags)
    requires IsCondition(c) && IsCondition(ReverseCond(c))
    ensures Taken(c, false, Status(reversed, false), f)
      == Some(Holds(Output(if reversed then ReverseCond(c) else c, Status(false, false)).value, f))
  {
    hide Holds;
  }

  lemma PlainTaken(c: Code2, m: Mode, s: Source)
    requires IsCondition(c) && InRange(s, m)
    ensures var t := Taken(c, false, StatusAfter(s), FlagsAfter(s, m));
      && (t.None? <==> s.Result? && (c == GT || c == LE))
      && (t.Some? ==> t.value == Wanted(c, m, Left(s), Right(s)))
  {
    hide Wanted;
    hide Holds;
    hide Compared;
    hide Output;
    hide Taken;
    match s
    case Comparison(op0, op1, a, b) =>
      ReversedMeans(c, m, a, b);
      StandardTaken(c, Exchanges(op0, op1), FlagsAfter(s, m));
      if Exchanges(op0, op1) { ComparedMeans(ReverseCond(c), m, b, a); } else { ComparedMeans(c, m, a, b); }
    case Test(v) =>
      ReversedMeans(c, m, v, 0);
      StandardTaken(c, false, FlagsAfter(s, m));
      TestedMeans(m, v);
      ComparedMeans(c, m, v, 0);
    case Result(v, carry, overflow) =>
      ResultMeans(c, m, v, FlagsAfter(s, m));
  }

  // The test that is called back makes the flags standard, so the jump is then taken
  // exactly when the program asks.
  lemma RecalledTest(c: Code2, inverted: bool, m: Mode, s: Source)
    requires IsCondition(c) && InRange(s, m) && s.Result?
    requires Taken(c, inverted, StatusAfter(s), FlagsAfter(s, m)).None?
    ensures Taken(c, inverted, StatusAfter(Test(s.v)), FlagsAfter(Test(s.v), m))
      == Some(Wanted(c, m, s.v, 0) != inverted)
  {
    JumpTaken(c, inverted, m, Test(s.v));
  }
}
