// The operand predicates of cmd/gcc/src/recog.c, on the address tests of the two
// machines.  They satisfy what the recognisers assume of them.

module OperandPredicates {
  import opened Rtl
  import opened Patterns
  import I486Address

  const STACK_POINTER := Reg(SI, I486Address.STACK_POINTER_REGNUM)

  // reload_completed, volatile_ok, stack_pointer_rtx and GO_IF_LEGITIMATE_ADDRESS,
  // which neither machine makes depend on the mode.
  datatype Target = Target(reloaded: bool, volatileOk: bool, stackPointer: Rtx, legitimate: Rtx -> bool)

  // The innermost SUBREG_REG.
  function Inside(x: Rtx): Rtx { if x.Subreg? then Inside(x.reg) else x }

  predicate MemoryOk(x: Rtx, t: Target)
    requires x.Mem?
  {
    (t.volatileOk || !x.volatil) && t.legitimate(x.addr)
  }

  // LEGITIMATE_CONSTANT_P is 1 on both machines.
  predicate GeneralOperand(x: Rtx, mode: Mode, t: Target) {
    var m := if mode == VOID then x.mode else mode;
    if ConstantP(x) then x.mode == VOID || x.mode == m
    else
      var y := Inside(x);
      x.mode == m && (Is0(y, REG) || Is0(y, CONST_DOUBLE) || (y.Mem? && MemoryOk(y, t)))
  }

  predicate AddressOperand(x: Rtx, t: Target) { t.legitimate(x) && (!x.Mem? || !x.volatil || t.volatileOk) }

  predicate RegisterOperand(x: Rtx, mode: Mode, t: Target) {
    && (x.mode == mode || mode == VOID)
    && if x.Subreg? && !t.reloaded then GeneralOperand(x, mode, t) else Is0(Inside(x), REG)
  }

  predicate ImmediateOperand(x: Rtx, mode: Mode) {
    ConstantP(x) || (Is0(x, CONST_DOUBLE) && (x.mode == mode || mode == VOID))
  }

  predicate NonimmediateOperand(x: Rtx, mode: Mode, t: Target) {
    GeneralOperand(x, mode, t) && !ConstantP(x) && !Is0(x, CONST_DOUBLE)
  }

  predicate PushOperand(x: Rtx, mode: Mode, t: Target) {
    x.Mem? && x.mode == mode && Is1(x.addr, PRE_DEC) && x.addr.arg == t.stackPointer
  }

  predicate MemoryOperand(x: Rtx, mode: Mode, t: Target) {
    if !t.reloaded then x.Mem? && GeneralOperand(x, mode, t)
    else (mode == VOID || x.mode == mode) && Inside(x).Mem? && GeneralOperand(x, mode, t)
  }

  predicate IndirectOperand(x: Rtx, mode: Mode, t: Target) {
    x.mode == mode && MemoryOperand(x, mode, t) && GeneralOperand(Xexp(x, 0), SI, t)
  }

  predicate Accepts(p: Predicate, x: Rtx, m: Mode, t: Target) {
    match p
    case General => GeneralOperand(x, m, t)
    case Register => RegisterOperand(x, m, t)
    case Push => PushOperand(x, m, t)
    case Memory => MemoryOperand(x, m, t)
    case Indirect => IndirectOperand(x, m, t)
    case Address => AddressOperand(x, t)
    case Nonimmediate => NonimmediateOperand(x, m, t)
    case Immediate => ImmediateOperand(x, m)
    case AnyRtx => true
  }

  // env with the predicates of a target.
  function With(env: Env, t: Target): Env { env.(accepts := (p, x, m) => Accepts(p, x, m, t)) }

  lemma {:induction false} InsideKind(x: Rtx)
    ensures !Inside(x).Subreg? && (!x.Subreg? ==> Inside(x) == x)
  {
    if x.Subreg? { InsideKind(x.reg); }
  }

  lemma PredicateFact(p: Predicate, x: Rtx, m: Mode, t: Target)
    requires Accepts(p, x, m, t) && (m != VOID || p == Immediate)
    requires t.legitimate(x) ==> AddressForm(x)
    ensures Fact(p, x, m)
  {
    InsideKind(x);
  }

  // When every legitimate address is an operand, a sum, a product or an automatic
  // increment, the predicates are what the recognisers need.
  lemma PredicatesSane(env: Env, t: Target)
    requires forall x :: t.legitimate(x) ==> AddressForm(x)
    ensures Sane(With(env, t))
  {
    var e := With(env, t);
    forall p, x, m | e.accepts(p, x, m) && (m != VOID || p == Immediate) ensures Fact(p, x, m) {
      PredicateFact(p, x, m, t);
    }
  }

  // What is accepted, beside what is not: in its own mode every register, every floating
  // constant and every memory operand at a legitimate address, and every other
  // constant in any mode.
  lemma GeneralAccepts(m: Mode, o: Mode, n: int, a: Rtx, v: bool, c: Rtx, t: Target)
    requires m != VOID && o != VOID && VoidConstant(c)
    ensures Accepts(General, Reg(o, n), m, t) <==> o == m
    ensures Accepts(General, X0(CONST_DOUBLE, o, n), m, t) <==> o == m
    ensures Accepts(General, Mem(o, a, v), m, t) <==> o == m && t.legitimate(a) && (v ==> t.volatileOk)
    ensures Accepts(General, Subreg(o, Reg(m, n), 0), m, t) <==> o == m
    ensures Accepts(General, c, m, t)
  {}

  lemma OthersAccept(m: Mode, o: Mode, n: int, a: Rtx, v: bool, c: Rtx, t: Target)
    requires m != VOID && o != VOID && VoidConstant(c)
    ensures Accepts(Register, Reg(o, n), m, t) <==> o == m
    ensures Accepts(Register, Subreg(o, Reg(m, n), 0), m, t) <==> o == m
    ensures !Accepts(Register, Mem(o, a, v), m, t) && !Accepts(Register, c, m, t)
    ensures Accepts(Nonimmediate, Reg(o, n), m, t) <==> o == m
    ensures Accepts(Nonimmediate, Mem(o, a, v), m, t) <==> Accepts(General, Mem(o, a, v), m, t)
    ensures !Accepts(Nonimmediate, c, m, t) && !Accepts(Nonimmediate, X0(CONST_DOUBLE, o, n), m, t)
  {}

  lemma MemoryAccepts(m: Mode, o: Mode, n: int, a: Rtx, v: bool, c: Rtx, t: Target)
    requires m != VOID && o != VOID && VoidConstant(c)
    ensures Accepts(Memory, Mem(o, a, v), m, t) <==> Accepts(General, Mem(o, a, v), m, t)
    ensures !Accepts(Memory, Reg(o, n), m, t) && !Accepts(Memory, c, m, t)
    ensures Accepts(Push, Mem(o, a, v), m, t) <==> o == m && exists s :: a == X1(PRE_DEC, s, t.stackPointer)
  {
    if Is1(a, PRE_DEC) && a.arg == t.stackPointer { assert a == X1(PRE_DEC, a.mode, t.stackPointer); }
  }

  lemma ImmediateAccepts(m: Mode, o: Mode, n: int, a: Rtx, v: bool, c: Rtx, t: Target)
    requires m != VOID && o != VOID && VoidConstant(c)
    ensures Accepts(Immediate, c, m, t) && !Accepts(Immediate, Reg(o, n), m, t)
    ensures !Accepts(Immediate, Mem(o, a, v), m, t)
    ensures Accepts(Immediate, X0(CONST_DOUBLE, o, n), m, t) <==> o == m
  {}

  // A SUBREG of memory is a register operand until reload and a memory operand after it.
  lemma SubregAccepts(m: Mode, o: Mode, a: Rtx, v: bool, w: int, t: Target)
    requires m != VOID && o != VOID
    ensures var x := Subreg(o, Mem(m, a, v), w);
      && (Accepts(Register, x, m, t) <==> !t.reloaded && Accepts(General, x, m, t))
      && (Accepts(Memory, x, m, t) <==> t.reloaded && Accepts(General, x, m, t))
      && (Accepts(General, x, m, t) <==> o == m && Accepts(General, Mem(m, a, v), m, t))
  {
    assert Inside(Subreg(o, Mem(m, a, v), w)) == Inside(Mem(m, a, v)) == Mem(m, a, v);
  }

  // An indirect operand stands in memory at the address a register, a constant or
  // another word of memory gives.
  lemma IndirectAccepts(m: Mode, o: Mode, n: int, v: bool, c: Rtx, t: Target)
    requires m != VOID && o != VOID && VoidConstant(c)
    ensures Accepts(Indirect, Mem(o, Reg(SI, n), v), m, t) <==> Accepts(Memory, Mem(o, Reg(SI, n), v), m, t)
    ensures Accepts(Indirect, Mem(o, c, v), m, t) <==> Accepts(Memory, Mem(o, c, v), m, t)
  {}

  lemma IndirectThroughMemory(m: Mode, o: Mode, n: int, a: Rtx, b: Rtx, v: bool, t: Target)
    requires m != VOID && o != VOID
    ensures Accepts(Indirect, Mem(o, Mem(SI, a, v), v), m, t) <==>
      Accepts(Memory, Mem(o, Mem(SI, a, v), v), m, t) && Accepts(Memory, Mem(SI, a, v), SI, t)
    ensures !Accepts(Indirect, Mem(o, X2(PLUS, SI, a, b), v), m, t) && !Accepts(Indirect, Reg(o, n), m, t)
  {}

  // An address operand is an address; one that stands in volatile memory needs volatileOk.
  lemma AnyAddress(m: Mode, o: Mode, a: Rtx, v: bool, t: Target)
    ensures !a.Mem? ==> (Accepts(Address, a, m, t) <==> t.legitimate(a))
    ensures Accepts(Address, Mem(o, a, v), m, t) <==> t.legitimate(Mem(o, a, v)) && (v ==> t.volatileOk)
    ensures Accepts(AnyRtx, a, m, t)
  {}

  // The constants are numbers, the addresses of symbols and labels, and constant
  // expressions.
  lemma Constants(m: Mode, n: int, x: Rtx)
    ensures ConstantP(ConstInt(n)) && ConstantP(X0(SYMBOL_REF, m, n))
    ensures ConstantP(X1(LABEL_REF, m, x)) && ConstantP(X1(Code1.CONST, m, x))
    ensures ConstantP(x) ==> x.X0? || x.X1?
    ensures x.X0? && ConstantP(x) ==> x.code0 == CONST_INT || x.code0 == SYMBOL_REF
    ensures x.X1? && ConstantP(x) ==> x.code1 == LABEL_REF || x.code1 == Code1.CONST
  {}

  // --------------------------------------------------------------------------
  // The i486

  function I486(reloaded: bool, volatileOk: bool, r: I486Address.Registers): Target {
    Target(reloaded, volatileOk, STACK_POINTER, x => I486Address.Legitimate(x, r))
  }

  // Memory operands are those at the machine's addresses, pushes those through register 7.
  lemma I486Accepts(m: Mode, a: Rtx, reloaded: bool, volatileOk: bool, r: I486Address.Registers, env: Env)
    requires m != VOID
    ensures var e := With(env, I486(reloaded, volatileOk, r));
      && (e.accepts(General, Mem(m, a, false), m) <==> I486Address.Legitimate(a, r))
      && (e.accepts(General, Mem(m, a, true), m) <==> I486Address.Legitimate(a, r) && volatileOk)
      && (e.accepts(Push, Mem(m, a, false), m) <==> Is1(a, PRE_DEC) && a.arg == Reg(SI, 7))
  {}

  lemma I486Sane(env: Env, reloaded: bool, volatileOk: bool, r: I486Address.Registers)
    ensures Sane(With(env, I486(reloaded, volatileOk, r)))
  {
    PredicatesSane(env, I486(reloaded, volatileOk, r));
  }

  // --------------------------------------------------------------------------
  // The m68k

  // REG_OK_FOR_BASE_P, REG_OK_FOR_INDEX_P and TARGET_68020.
  datatype M68k = M68k(base: int -> bool, index: int -> bool, t68020: bool)

  predicate BaseRegister(x: Rtx, c: M68k) { Is0(x, REG) && c.base(x.val) }

  // (unsigned) INTVAL (X) + half < 2 * half
  predicate Displacement(x: Rtx, half: int) { Is0(x, CONST_INT) && (x.val + half) % 0x1_0000_0000 < 2 * half }

  // INDIRECTABLE_1_ADDRESS_P
  predicate Indirectable(x: Rtx, c: M68k) {
    || ConstantP(x)
    || BaseRegister(x, c)
    || ((Is1(x, PRE_DEC) || Is1(x, POST_INC)) && BaseRegister(x.arg, c))
    || (Is2(x, PLUS) && BaseRegister(x.left, c) && Displacement(x.right, 0x8000))
  }

  predicate IndexRegister(x: Rtx, c: M68k) {
    || (Is0(x, REG) && c.index(x.val))
    || (Is1(x, SIGN_EXTEND) && Is0(x.arg, REG) && x.arg.mode == HI && c.index(x.arg.val))
  }

  predicate Index(x: Rtx, c: M68k) {
    || IndexRegister(x, c)
    || (c.t68020 && Is2(x, MULT) && IndexRegister(x.left, c) && Is0(x.right, CONST_INT) && x.right.val in {2, 4, 8})
  }

  predicate IndexableBase(x: Rtx, c: M68k) { Is1(x, LABEL_REF) || BaseRegister(x, c) }

  predicate Indexing(x: Rtx, c: M68k) {
    && Is2(x, PLUS)
    && ((Index(x.left, c) && IndexableBase(x.right, c)) || (Index(x.right, c) && IndexableBase(x.left, c)))
  }

  predicate M68kLegitimate(x: Rtx, c: M68k) {
    || Indirectable(x, c)
    || Indexing(x, c)
    || (Is2(x, PLUS) && Displacement(x.right, 0x80) && Indexing(x.left, c))
    || (Is2(x, PLUS) && Displacement(x.left, 0x80) && Indexing(x.right, c))
  }

  lemma M68kSane(env: Env, reloaded: bool, volatileOk: bool, stackPointer: Rtx, c: M68k)
    ensures Sane(With(env, Target(reloaded, volatileOk, stackPointer, x => M68kLegitimate(x, c))))
  {
    PredicatesSane(env, Target(reloaded, volatileOk, stackPointer, x => M68kLegitimate(x, c)));
  }
}
