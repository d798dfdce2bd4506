// The values of rtx's that name registers, memory and link-time constants, as
// 32-bit words.

module RtlValue {
  import opened Arithmetic
  import opened Rtl

  const WORD := 0x1_0000_0000

  // What an rtx is evaluated on: registers, memory by mode and address, and a
  // meaning for every expression that is not computed here, given the values of its
  // operands.
  datatype Machine = Machine(reg: int -> int, mem: (Mode, int) -> int, other: (Rtx, seq<int>) -> int)

  function Wrap(v: int): int { v % WORD }

  function SignExtend16(v: int): int {
    var h := v % 0x1_0000;
    Wrap(if h < 0x8000 then h else h - 0x1_0000)
  }

  // The word with the signed value of the halfword.
  lemma SignExtend16Means(v: int)
    ensures SignExtend16(v) == Signed(HI, v % Range(HI)) % WORD
  {}

  function Value(x: Rtx, m: Machine): int {
    match x
    case X0(c, _, v) => Wrap(if c == REG then m.reg(v) else if c == CONST_INT then v else m.other(x, []))
    case X1(c, _, a) => UnaryValue(x, c, if c == LABEL_REF then 0 else Value(a, m), m)
    case X2(c, _, a, b) => BinaryValue(x, c, Value(a, m), Value(b, m), m)
    case X3(_, _, a, b, c) => Wrap(m.other(x, [Value(a, m), Value(b, m), Value(c, m)]))
    case Mem(mode, a, _) => Wrap(m.mem(mode, Value(a, m)))
    case Subreg(_, a, _) => Wrap(m.other(x, [Value(a, m)]))
    case Parallel(_, _) => Wrap(m.other(x, []))
  }

  // A label's value is the label's own, whatever stands inside it.
  function UnaryValue(x: Rtx, c: Code1, a: int, m: Machine): int {
    match c
    case CONST => Wrap(a)
    case NEG => Wrap(-a)
    case NOT => Wrap(-1 - a)
    case SIGN_EXTEND => if Xexp(x, 0).mode == HI then SignExtend16(a) else Wrap(m.other(x, [a]))
    case ZERO_EXTEND => if Xexp(x, 0).mode in {QI, HI} then a % Range(Xexp(x, 0).mode) else Wrap(m.other(x, [a]))
    case LABEL_REF => Wrap(m.other(x, []))
    case _ => Wrap(m.other(x, [a]))
  }

  // Sums, differences and products are taken in 32 bits, whatever their mode.
  function BinaryValue(x: Rtx, c: Code2, a: int, b: int, m: Machine): int {
    if c == PLUS then Wrap(a + b)
    else if c == MINUS then Wrap(a - b)
    else if c == MULT then Wrap(a * b)
    else if Integer(c) then Operation(c, x.mode, a, b)
    else Wrap(m.other(x, [a, b]))
  }

  function Operation(c: Code2, mode: Mode, a: int, b: int): int {
    Wrap(BinaryMeaning(c, mode, a % Range(mode), b % Range(mode)))
  }

  lemma WrapSum(a: int, b: int)
    ensures Wrap(Wrap(a) + b) == Wrap(a + b) && Wrap(b + Wrap(a)) == Wrap(a + b)
  {}

  lemma ValueInRange(x: Rtx, m: Machine)
    ensures 0 <= Value(x, m) < WORD && Wrap(Value(x, m)) == Value(x, m)
  {}

  // Every register of x is below n.
  predicate Below(x: Rtx, n: int) {
    match x
    case X0(c, _, v) => c == REG ==> v < n
    case X1(c, _, a) => c == LABEL_REF || Below(a, n)
    case X2(_, _, a, b) => Below(a, n) && Below(b, n)
    case X3(_, _, a, b, c) => Below(a, n) && Below(b, n) && Below(c, n)
    case Mem(_, a, _) => Below(a, n)
    case Subreg(_, a, _) => Below(a, n)
    case Parallel(_, _) => true
  }

  // A value that names only registers below lo does not depend on the others.
  lemma {:induction false} ValueKept(x: Rtx, lo: int, m: Machine, after: Machine)
    requires Below(x, lo) && after.mem == m.mem && after.other == m.other
    requires forall n | n < lo :: after.reg(n) == m.reg(n)
    ensures Value(x, after) == Value(x, m)
  {
    match x
    case X0(_, _, _) =>
    case X1(c, _, a) => if c != LABEL_REF { ValueKept(a, lo, m, after); }
    case X2(_, _, a, b) => ValueKept(a, lo, m, after); ValueKept(b, lo, m, after);
    case X3(_, _, a, b, c) => ValueKept(a, lo, m, after); ValueKept(b, lo, m, after); ValueKept(c, lo, m, after);
    case Mem(_, a, _) => ValueKept(a, lo, m, after);
    case Subreg(_, a, _) => ValueKept(a, lo, m, after);
    case Parallel(_, _) =>
  }

  lemma {:induction false} BelowMore(x: Rtx, lo: int, hi: int)
    requires Below(x, lo) && lo <= hi
    ensures Below(x, hi)
  {
    match x
    case X0(_, _, _) =>
    case X1(c, _, a) => if c != LABEL_REF { BelowMore(a, lo, hi); }
    case X2(_, _, a, b) => BelowMore(a, lo, hi); BelowMore(b, lo, hi);
    case X3(_, _, a, b, c) => BelowMore(a, lo, hi); BelowMore(b, lo, hi); BelowMore(c, lo, hi);
    case Mem(_, a, _) => BelowMore(a, lo, hi);
    case Subreg(_, a, _) => BelowMore(a, lo, hi);
    case Parallel(_, _) =>
  }
}
