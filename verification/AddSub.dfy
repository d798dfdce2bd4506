// 32-bit addition and subtraction on the 68000 (output_78 and output_90 in
// cmd/gcc/m68k.gen/insn-output.c).

module AddSub {
  import opened Common
  import opened M68kMachine

  predicate AddressReg(x: Operand) { x.R? && x.n >= 8 }

  predicate DataReg(x: Operand) { x.R? && x.n < 8 }

  predicate Short(v: int) { -0x8000 <= v < 0x8000 }

  predicate Quick(v: int) { 0 < v <= 8 }

  // The quick forms leave out the operand size's effect on an address register.
  function QuickSize(dst: Operand): Size { if AddressReg(dst) then 2 else 4 }

  // A constant operand is a CONST_INT, or symbolic: known only to the linker.
  predicate ConstInt(x: Operand, symbolic: bool) { x.Imm? && !symbolic }

  // output_78
  function AddOutput(op0: Operand, op1: Operand, op2: Operand, symbolic: bool): seq<Instr> {
    if op0 != op1 then
      var (base, other) := if AddressReg(op1) then (op1, op2) else (op2, op1);
      if ConstInt(other, symbolic) && !Short(other.v) then [Move(4, other, op0), Add(4, base, op0)]
      else if !base.R? then []
      else if other.R? then [Lea(M(Some(base.n), Some(other.n), 0), op0)]
      else if other.Imm? then [Lea(M(Some(base.n), None, other.v), op0)]
      else []
    else if ConstInt(op2, symbolic) && Quick(op2.v) then [AddQuick(QuickSize(op0), op2.v, op0)]
    else if ConstInt(op2, symbolic) && Quick(-op2.v) then [SubQuick(QuickSize(op0), -op2.v, op0)]
    else if ConstInt(op2, symbolic) && AddressReg(op0) && Short(op2.v) then [Add(2, op2, op0)]
    else [Add(4, op2, op0)]
  }

  // A memory operand, whose register the destination does not name when it changes.
  predicate Memory(x: Operand, dst: Operand) {
    x.M? || ((x.Dec? || x.Inc?) && x.n >= 8 && !Mentions(x.n, dst))
  }

  // The constraint alternatives of code 78.  Only an addition in place takes a symbol.
  predicate AddPermitted(op0: Operand, op1: Operand, op2: Operand, symbolic: bool) {
    || (op0.M? && op1 == op0 && (DataReg(op2) || op2.Imm?))
    || (op0.R? && op1 == op0 && (op2.R? || Memory(op2, op0) || op2.Imm?))
    || (AddressReg(op0) && AddressReg(op1) && (op2.R? || ConstInt(op2, symbolic)))
    || (AddressReg(op0) && (op1.R? || ConstInt(op1, symbolic)) && AddressReg(op2))
  }

  // The state once both operands have been fetched.
  function Fetched(op1: Operand, op2: Operand, s: State): State { Locate(op2, Locate(op1, s, 4).0, 4).0 }

  // The long form loads its constant over the base register.
  predicate LongOverBase(op0: Operand, op1: Operand, op2: Operand) {
    op0 == op2 && op1.Imm? && !Short(op1.v)
  }

  // Instructions with the displacements and immediate operands the machine can encode.
  predicate Encodable(i: Instr) {
    match i
    case Lea(M(base, index, disp), dst) => base.Some? && base.value >= 8 && AddressReg(dst) && Short(disp)
    case Add(n, Imm(v), dst) => n == 2 ==> Short(v)
    case Sub(n, Imm(v), dst) => n == 2 ==> Short(v)
    case AddQuick(_, v, _) => 1 <= v <= 8
    case SubQuick(_, v, _) => 1 <= v <= 8
    case _ => true
  }

  lemma WrapDiff(g: int, v: int)
    ensures Wrap(g - Wrap(v)) == Wrap(g - v)
  {}

  lemma ShortAddend(v: int, dst: Operand, s: State)
    requires AddressReg(dst) && Short(v)
    ensures Addend(Imm(v), dst, s, 2) == v
  {}

  // A constant as an addend: its own value, whatever the form and the size that hold it.
  lemma ConstantAddend(v: int, dst: Operand, s: State, n: Size)
    requires n == 4 || (n == 2 && AddressReg(dst) && Short(v))
    ensures var g := Get(dst, s, 4);
      && Execute(Add(n, Imm(v), dst), s) == Execute(AddQuick(n, v, dst), s) == Put(dst, s, 4, Wrap(g + v))
      && Execute(Sub(n, Imm(v), dst), s) == Execute(SubQuick(n, v, dst), s) == Put(dst, s, 4, Wrap(g - v))
      && Wrap(g + Get(Imm(v), s, 4)) == Wrap(g + v) && Wrap(g - Get(Imm(v), s, 4)) == Wrap(g - v)
  {
    hide Signed16;
    var g := Get(dst, s, 4);
    WrapAdd(v, g);
    WrapDiff(g, v);
    if n == 2 { ShortAddend(v, dst, s); }
  }

  // An operand that names no register the other one changes is not affected by it.
  lemma FetchedApart(op0: Operand, op2: Operand, s: State)
    requires op0.R? && Memory(op2, op0)
    ensures Get(op0, Locate(op2, s, 4).0, 4) == Get(op0, s, 4)
  {}

  lemma AddInPlace(op0: Operand, op2: Operand, symbolic: bool, s: State)
    requires AddPermitted(op0, op0, op2, symbolic)
    ensures Run(AddOutput(op0, op0, op2, symbolic), s)
      == Put(op0, Locate(op2, s, 4).0, 4, Wrap(Get(op0, s, 4) + Get(op2, s, 4)))
  {
    hide Get;
    hide Wrap;
    hide Put;
    hide Run;
    hide Execute;
    var code := AddOutput(op0, op0, op2, symbolic);
    RunTwo(code[0], code[0], s);
    if op2.Imm? {
      ConstantAddend(op2.v, op0, s, 4);
      ConstantAddend(-op2.v, op0, s, 4);
      if AddressReg(op0) && Short(op2.v) { ConstantAddend(op2.v, op0, s, 2); }
      if AddressReg(op0) && Short(-op2.v) { ConstantAddend(-op2.v, op0, s, 2); }
    } else {
      PlainAdd(op0, op2, s);
      if Memory(op2, op0) && op0.R? { FetchedApart(op0, op2, s); }
    }
  }

  lemma PlainAdd(op0: Operand, op2: Operand, s: State)
    ensures var t := Locate(op2, s, 4).0;
      && Execute(Add(4, op2, op0), s) == Put(op0, t, 4, Wrap(Get(op0, t, 4) + Get(op2, s, 4)))
      && Execute(Sub(4, op2, op0), s) == Put(op0, t, 4, Wrap(Get(op0, t, 4) - Get(op2, s, 4)))
  {}

  // A register written twice keeps the second value.
  lemma PutTwice(op0: Operand, s: State, v: Word, w: Word)
    requires op0.R?
    ensures var t := Put(op0, s, 4, v);
      t.reg[op0.n] == v && t.mem == s.mem && Get(op0, t, 4) == v && Put(op0, t, 4, w) == Put(op0, s, 4, w)
      && forall q: Register | q != op0.n :: t.reg[q] == s.reg[q]
  {}

  lemma MoveConstant(v: int, op0: Operand, s: State)
    ensures Execute(Move(4, Imm(v), op0), s) == Put(op0, s, 4, Wrap(v)) && Get(Imm(v), s, 4) == Wrap(v)
  {}

  lemma LongForm(op0: Operand, base: Operand, v: int, s: State)
    requires op0.R? && base.R? && op0 != base
    ensures Execute(Add(4, base, op0), Execute(Move(4, Imm(v), op0), s)) ==
        Put(op0, s, 4, Wrap(Get(base, s, 4) + Get(Imm(v), s, 4)))
  {
    hide Execute;
    hide Put;
    hide Wrap;
    MoveConstant(v, op0, s);
    PutTwice(op0, s, Wrap(v), Wrap(Get(base, s, 4) + Get(Imm(v), s, 4)));
    var t := Put(op0, s, 4, Wrap(v));
    assert Locate(base, t, 4).0 == t && Get(base, t, 4) == Get(base, s, 4);
    PlainAdd(op0, base, t);
  }

  lemma LeaForm(op0: Operand, base: Operand, other: Operand, s: State)
    requires op0.R? && base.R? && (other.R? || other.Imm?)
    ensures var m := if other.R? then M(Some(base.n), Some(other.n), 0) else M(Some(base.n), None, other.v);
      Execute(Lea(m, op0), s) == Put(op0, s, 4, Wrap(Get(base, s, 4) + Get(other, s, 4)))
  {
    var b: int := s.reg[base.n];
    assert Get(base, s, 4) == b;
    if other.Imm? { WrapAdd(other.v, b); }
  }

  // An address register set by lea, or by moving the constant in and adding the base.
  lemma AddThreeOperand(op0: Operand, op1: Operand, op2: Operand, symbolic: bool, s: State)
    requires AddPermitted(op0, op1, op2, symbolic) && op0 != op1 && !LongOverBase(op0, op1, op2)
    ensures Run(AddOutput(op0, op1, op2, symbolic), s) == Put(op0, s, 4, Wrap(Get(op1, s, 4) + Get(op2, s, 4)))
  {
    hide Run;
    hide Wrap;
    hide Execute;
    hide Get;
    hide Put;
    var (base, other) := if AddressReg(op1) then (op1, op2) else (op2, op1);
    var code := AddOutput(op0, op1, op2, symbolic);
    if other.Imm? && !Short(other.v) {
      RunTwo(code[0], code[1], s);
      LongForm(op0, base, other.v, s);
    } else {
      RunTwo(code[0], code[0], s);
      LeaForm(op0, base, other, s);
    }
  }

  // Over its own base register the long form doubles the constant.
  lemma LongFormDoubles(op0: Operand, v: int, s: State)
    requires op0.R?
    ensures Execute(Add(4, op0, op0), Execute(Move(4, Imm(v), op0), s)) == Put(op0, s, 4, Wrap(Wrap(v) + Wrap(v)))
  {
    hide Execute;
    hide Put;
    hide Wrap;
    MoveConstant(v, op0, s);
    PutTwice(op0, s, Wrap(v), Wrap(Wrap(v) + Wrap(v)));
    PlainAdd(op0, op0, Put(op0, s, 4, Wrap(v)));
  }

  lemma PutDistinct(op0: Operand, s: State, v: Word, w: Word)
    requires op0.R?
    ensures Put(op0, s, 4, v) == Put(op0, s, 4, w) <==> v == w
  {
    hide Put;
    PutTwice(op0, s, v, w);
    PutTwice(op0, s, w, v);
  }

  lemma SameSum(a: int, b: int, c: int)
    ensures Wrap(a + c) == Wrap(b + c) <==> Wrap(a) == Wrap(b)
  {}

  // The code of output_78 adds modulo 2^32 on every path the constraints permit, and
  // fails only when the long form's destination is its base register and that
  // register does not hold the constant already.
  lemma AddCorrect(op0: Operand, op1: Operand, op2: Operand, symbolic: bool, s: State)
    requires AddPermitted(op0, op1, op2, symbolic)
    ensures Run(AddOutput(op0, op1, op2, symbolic), s)
        == Put(op0, Fetched(op1, op2, s), 4, Wrap(Get(op1, s, 4) + Get(op2, s, 4)))
        <==> (LongOverBase(op0, op1, op2) ==> Get(op2, s, 4) == Get(op1, s, 4))
  {
    hide Run;
    hide Wrap;
    hide Execute;
    hide Get;
    hide Put;
    if op0 == op1 {
      AddInPlace(op0, op2, symbolic, s);
    } else if !LongOverBase(op0, op1, op2) {
      AddThreeOperand(op0, op1, op2, symbolic, s);
    } else {
      var code := AddOutput(op0, op1, op2, symbolic);
      RunTwo(code[0], code[1], s);
      LongFormDoubles(op0, op1.v, s);
      GetConstant(op1.v, s);
      GetWord(op0, s);
      SameSum(Wrap(op1.v), Get(op0, s, 4), Wrap(op1.v));
      PutDistinct(op0, s, Wrap(Wrap(op1.v) + Wrap(op1.v)), Wrap(Wrap(op1.v) + Get(op0, s, 4)));
    }
  }

  lemma GetConstant(v: int, s: State)
    ensures Get(Imm(v), s, 4) == Wrap(v) && Wrap(Wrap(v)) == Wrap(v)
  {}

  lemma GetWord(x: Operand, s: State)
    requires x.R?
    ensures Wrap(Get(x, s, 4)) == Get(x, s, 4)
  {}

  lemma AddEncodable(op0: Operand, op1: Operand, op2: Operand, symbolic: bool)
    requires AddPermitted(op0, op1, op2, symbolic)
    ensures forall i :: i in AddOutput(op0, op1, op2, symbolic) ==> Encodable(i)
  {}

  // --------------------------------------------------------------------------
  // output_90

  function SubOutput(op0: Operand, op1: Operand, op2: Operand, symbolic: bool): seq<Instr> {
    if op0 != op1 then
      if op0 == op2 then
        [if ConstInt(op1, symbolic) && Quick(op1.v) then SubQuick(4, op1.v, op0) else Sub(4, op1, op0), Neg(op0)]
      else if !op2.Imm? || !op1.R? then []
      else if op2.v == -0x8000 then [Move(4, op1, op0), Sub(4, op2, op0)]
      else [Lea(M(Some(op1.n), None, -op2.v), op0)]
    else if ConstInt(op2, symbolic) && Quick(op2.v) then [SubQuick(4, op2.v, op0)]
    else if ConstInt(op2, symbolic) && AddressReg(op0) && Short(op2.v) then [Sub(2, op2, op0)]
    else [Sub(4, op2, op0)]
  }

  // The constraint alternatives of code 90.
  predicate SubPermitted(op0: Operand, op1: Operand, op2: Operand, symbolic: bool) {
    || (op0.M? && op1 == op0 && (DataReg(op2) || op2.Imm?))
    || (op0.R? && op1 == op0 && (op2.R? || Memory(op2, op0) || op2.Imm?))
    || (AddressReg(op0) && AddressReg(op1) && ConstInt(op2, symbolic) && Short(op2.v))
    || (DataReg(op0) && (op1.R? || Memory(op1, op0) || op1.Imm?) && op2 == op0)
  }

  lemma SubInPlace(op0: Operand, op2: Operand, symbolic: bool, s: State)
    requires SubPermitted(op0, op0, op2, symbolic)
    ensures Run(SubOutput(op0, op0, op2, symbolic), s)
      == Put(op0, Locate(op2, s, 4).0, 4, Wrap(Get(op0, s, 4) - Get(op2, s, 4)))
  {
    hide Get;
    hide Wrap;
    hide Put;
    hide Run;
    hide Execute;
    var code := SubOutput(op0, op0, op2, symbolic);
    RunTwo(code[0], code[0], s);
    PlainAdd(op0, op2, s);
    if op2.Imm? {
      ConstantAddend(op2.v, op0, s, 4);
      if AddressReg(op0) && Short(op2.v) { ConstantAddend(op2.v, op0, s, 2); }
    } else if Memory(op2, op0) && op0.R? {
      FetchedApart(op0, op2, s);
    }
  }

  // The subtrahend in the destination: subtract the minuend from it and negate.
  lemma SubReversed(op0: Operand, op1: Operand, s: State)
    requires DataReg(op0) && op0 != op1 && (op1.R? || Memory(op1, op0) || op1.Imm?)
    ensures Execute(Neg(op0), Execute(Sub(4, op1, op0), s))
      == Put(op0, Locate(op1, s, 4).0, 4, Wrap(Get(op1, s, 4) - Get(op0, s, 4)))
  {
    hide Execute;
    hide Put;
    hide Wrap;
    hide Get;
    hide Locate;
    PlainAdd(op0, op1, s);
    var a, b, t := Get(op0, s, 4), Get(op1, s, 4), Locate(op1, s, 4).0;
    if Memory(op1, op0) { FetchedApart(op0, op1, s); } else { PlainLocate(op1, s); }
    WrapDiff(0, a - b);
    PutTwice(op0, t, Wrap(a - b), Wrap(b - a));
    NegWord(op0, Put(op0, t, 4, Wrap(a - b)));
  }

  lemma PlainLocate(x: Operand, s: State)
    requires x.R? || x.Imm?
    ensures Locate(x, s, 4).0 == s
  {}

  lemma NegWord(op0: Operand, s: State)
    ensures Execute(Neg(op0), s) == Put(op0, s, 4, Wrap(0 - Get(op0, s, 4)))
  {}

  // The constant whose negation is no displacement: move and subtract.
  lemma SubMoved(op0: Operand, op1: Operand, v: int, s: State)
    requires op0.R? && op1.R? && op0 != op1
    ensures Execute(Sub(4, Imm(v), op0), Execute(Move(4, op1, op0), s)) ==
        Put(op0, s, 4, Wrap(Get(op1, s, 4) - Get(Imm(v), s, 4)))
  {
    var b: Word := s.reg[op1.n];
    assert Execute(Move(4, op1, op0), s) == Put(op0, s, 4, b) && Get(op1, s, 4) == b;
    PutTwice(op0, s, b, Wrap(b as int - Get(Imm(v), s, 4)));
    PlainAdd(op0, Imm(v), Put(op0, s, 4, b));
    hide Execute;
    hide Put;
    hide Wrap;
  }

  lemma LeaNegative(op0: Operand, op1: Operand, v: int, s: State)
    requires op0.R? && op1.R?
    ensures Execute(Lea(M(Some(op1.n), None, -v), op0), s) == Put(op0, s, 4, Wrap(Get(op1, s, 4) - Get(Imm(v), s, 4)))
  {
    var b: int := s.reg[op1.n];
    assert Get(op1, s, 4) == b;
    WrapDiff(b, v);
  }

  // The code of output_90 subtracts modulo 2^32 on every path the constraints permit.
  lemma SubCorrect(op0: Operand, op1: Operand, op2: Operand, symbolic: bool, s: State)
    requires SubPermitted(op0, op1, op2, symbolic)
    ensures Run(SubOutput(op0, op1, op2, symbolic), s)
      == Put(op0, Fetched(op1, op2, s), 4, Wrap(Get(op1, s, 4) - Get(op2, s, 4)))
  {
    hide Run;
    hide Wrap;
    hide Execute;
    hide Get;
    hide Put;
    var code := SubOutput(op0, op1, op2, symbolic);
    if op0 == op1 {
      SubInPlace(op0, op2, symbolic, s);
    } else if op0 == op2 {
      RunTwo(code[0], code[1], s);
      SubReversed(op0, op1, s);
      if op1.Imm? { ConstantAddend(op1.v, op0, s, 4); }
    } else if op2.v == -0x8000 {
      RunTwo(code[0], code[1], s);
      SubMoved(op0, op1, op2.v, s);
    } else {
      RunTwo(code[0], code[0], s);
      LeaNegative(op0, op1, op2.v, s);
    }
  }

  lemma SubEncodable(op0: Operand, op1: Operand, op2: Operand, symbolic: bool)
    requires SubPermitted(op0, op1, op2, symbolic)
    ensures forall i :: i in SubOutput(op0, op1, op2, symbolic) ==> Encodable(i)
  {}

  // The words of an immediate operand.
  function ImmediateWords(i: Instr): nat {
    match i
    case Add(n, Imm(_), _) => if n == 4 then 2 else 1
    case Sub(n, Imm(_), _) => if n == 4 then 2 else 1
    case _ => 0
  }

  // An in-place form has no immediate word for a constant of size 1 to 8 (a subtraction
  // of a positive one), one when an address register's constant fits, otherwise two.
  lemma InPlaceWords(x: Operand, v: int)
    ensures var add, sub := AddOutput(x, x, Imm(v), false), SubOutput(x, x, Imm(v), false);
      && |add| == |sub| == 1
      && (ImmediateWords(add[0]) == 0 <==> -8 <= v <= 8 && v != 0)
      && (ImmediateWords(sub[0]) == 0 <==> 1 <= v <= 8)
      && (ImmediateWords(add[0]) == 2 <==> !(-8 <= v <= 8 && v != 0) && !(AddressReg(x) && -0x8000 <= v < 0x8000))
      && (ImmediateWords(sub[0]) == 2 <==> !(1 <= v <= 8) && !(AddressReg(x) && -0x8000 <= v < 0x8000))
  {}
}
