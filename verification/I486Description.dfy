// The i486 machine description (cmd/gcc/i486.gen): one template per insn code,
// as built by insn-emit.c with the operand tables of insn-output.c.

module I486Description {
  import opened Rtl
  import opened Patterns

  const N_CODES := 142

  function TestPattern(k: int): Pat {
    match k
    case 0 => Test(SI)
    case 1 => Test(HI)
    case 2 => Test(QI)
    case 3 => WithClobber(Test(SF), Lit(Reg(SI, 0)))
    case 4 => WithClobber(Test(DF), Lit(Reg(SI, 0)))
    case 5 => TestBinary(COMPARE, VOID, SI)
    case 6 => TestBinary(COMPARE, VOID, HI)
    case 7 => TestBinary(COMPARE, VOID, QI)
    case 8 => WithClobber(TestBinary(COMPARE, VOID, DF), Lit(Reg(SI, 0)))
    case 9 => WithClobber(TestBinary(COMPARE, VOID, SF), Lit(Reg(SI, 0)))
    case 10 => TestBinary(AND, SI, SI)
    case 11 => TestBinary(AND, HI, HI)
    case 12 => TestBinary(AND, QI, QI)
    case _ => Never
  }

  function MovePattern(k: int): Pat {
    match k
    case 13 => Move(Push, SI)
    case 14 => Move(General, SI)
    case 15 => Move(Push, HI)
    case 16 => Move(General, HI)
    case 17 => Move(Push, QI)
    case 18 => Move(General, QI)
    case 19 => Move(Push, SF)
    case 20 => Move(General, SF)
    case 21 => Move(Push, DF)
    case 22 => Move(General, DF)
    case 23 => Move(Push, DI)
    case 24 => Move(General, DI)
    case 25 => BinaryConst(SI, PLUS, 1)
    case 26 => BinaryConst(SI, PLUS, -1)
    case 27 => BinaryConst(SI, MINUS, 1)
    case 28 => P2(SET, VOID, Op(0, Register, SI), Op(1, Address, QI))
    case _ => Never
  }

  function ConvertPattern(k: int): Pat {
    match k
    case 29 => Unary(QI, TRUNCATE, QI, SI)
    case 30 => Unary(QI, TRUNCATE, QI, HI)
    case 31 => Unary(HI, TRUNCATE, HI, SI)
    case 32 => Unary(SI, ZERO_EXTEND, SI, HI)
    case 33 => Unary(HI, ZERO_EXTEND, HI, QI)
    case 34 => Unary(SI, ZERO_EXTEND, SI, QI)
    case 35 => Unary(SI, SIGN_EXTEND, SI, HI)
    case 36 => Unary(HI, SIGN_EXTEND, HI, QI)
    case 37 => Unary(SI, SIGN_EXTEND, SI, QI)
    case 38 => Unary(DF, FLOAT_EXTEND, DF, SF)
    case 39 => Unary(SF, FLOAT_TRUNCATE, SF, DF)
    case 40 => Unary(SF, FLOAT, SF, SI)
    case 41 => Unary(DF, FLOAT, DF, SI)
    case _ => Never
  }

  function AddSubPattern(k: int): Pat {
    match k
    case 42 => Binary(SI, PLUS, SI, SI, SI)
    case 43 => BinaryConst(HI, PLUS, 1)
    case 44 => Binary(HI, PLUS, HI, HI, HI)
    case 45 => BinaryConst(QI, PLUS, 1)
    case 46 => Binary(QI, PLUS, QI, QI, QI)
    case 47 => Binary(DF, PLUS, DF, DF, DF)
    case 48 => Binary(SF, PLUS, SF, SF, SF)
    case 49 => Binary(SI, MINUS, SI, SI, SI)
    case 50 => BinaryConst(HI, MINUS, 1)
    case 51 => Binary(HI, MINUS, HI, HI, HI)
    case 52 => BinaryConst(QI, MINUS, 1)
    case 53 => Binary(QI, MINUS, QI, QI, QI)
    case 54 => Binary(DF, MINUS, DF, DF, DF)
    case 55 => Binary(SF, MINUS, SF, SF, SF)
    case _ => Never
  }

  function MulDivPattern(k: int): Pat {
    match k
    case 56 => Binary(HI, MULT, SI, HI, HI)
    case 57 => Binary(SI, MULT, SI, SI, SI)
    case 58 => WithClobber(Binary(HI, UMULT, SI, HI, HI), Lit(Reg(HI, 1)))
    case 59 => WithClobber(Binary(SI, UMULT, SI, SI, SI), Lit(Reg(SI, 1)))
    case 60 => Binary(DF, MULT, DF, DF, DF)
    case 61 => Binary(SF, MULT, SF, SF, SF)
    case 62 => Binary(DF, DIV, DF, DF, DF)
    case 63 => Binary(SF, DIV, SF, SF, SF)
    case 66 => DivMod(DIV, MOD)
    case 67 => DivMod(UDIV, UMOD)
    case _ => Never
  }

  function LogicPattern(k: int): Pat {
    match k
    case 68 => Binary(SI, AND, SI, SI, SI)
    case 69 => Binary(HI, AND, HI, HI, HI)
    case 70 => Binary(QI, AND, QI, QI, QI)
    case 71 => Binary(SI, IOR, SI, SI, SI)
    case 72 => Binary(HI, IOR, HI, HI, HI)
    case 73 => Binary(QI, IOR, QI, QI, QI)
    case 74 => Binary(SI, XOR, SI, SI, SI)
    case 75 => Binary(HI, XOR, HI, HI, HI)
    case 76 => Binary(QI, XOR, QI, QI, QI)
    case _ => Never
  }

  function NegatePattern(k: int): Pat {
    match k
    case 77 => Unary(SI, NEG, SI, SI)
    case 78 => Unary(HI, NEG, HI, HI)
    case 79 => Unary(QI, NEG, QI, QI)
    case 80 => Unary(SF, NEG, SF, SF)
    case 81 => Unary(DF, NEG, DF, DF)
    case 82 => Unary(SF, ABS, SF, SF)
    case 83 => Unary(DF, ABS, DF, DF)
    case 84 => Unary(SI, NOT, SI, SI)
    case 85 => Unary(HI, NOT, HI, HI)
    case 86 => Unary(QI, NOT, QI, QI)
    case _ => Never
  }

  function ShiftPattern(k: int): Pat {
    match k
    case 87 => Binary(SI, ASHIFT, SI, SI, SI)
    case 88 => Binary(HI, ASHIFT, HI, HI, HI)
    case 89 => Binary(QI, ASHIFT, QI, QI, QI)
    case 90 => Binary(SI, ASHIFTRT, SI, SI, SI)
    case 91 => Binary(HI, ASHIFTRT, HI, HI, HI)
    case 92 => Binary(QI, ASHIFTRT, QI, QI, QI)
    case 93 => Binary(SI, LSHIFT, SI, SI, SI)
    case 94 => Binary(HI, LSHIFT, HI, HI, HI)
    case 95 => Binary(QI, LSHIFT, QI, QI, QI)
    case 96 => Binary(SI, LSHIFTRT, SI, SI, SI)
    case 97 => Binary(HI, LSHIFTRT, HI, HI, HI)
    case 98 => Binary(QI, LSHIFTRT, QI, QI, QI)
    case _ => Never
  }

  function RotatePattern(k: int): Pat {
    match k
    case 99 => Binary(SI, ROTATE, SI, SI, SI)
    case 100 => Binary(HI, ROTATE, HI, HI, HI)
    case 101 => Binary(QI, ROTATE, QI, QI, QI)
    case 102 => Binary(SI, ROTATERT, SI, SI, SI)
    case 103 => Binary(HI, ROTATERT, HI, HI, HI)
    case 104 => Binary(QI, ROTATERT, QI, QI, QI)
    case _ => Never
  }

  function FlagPattern(k: int): Pat {
    match k
    case 105 => StoreFlag(EQ)
    case 106 => StoreFlag(NE)
    case 107 => StoreFlag(GT)
    case 108 => StoreFlag(GTU)
    case 109 => StoreFlag(LT)
    case 110 => StoreFlag(LTU)
    case 111 => StoreFlag(GE)
    case 112 => StoreFlag(GEU)
    case 113 => StoreFlag(LE)
    case 114 => StoreFlag(LEU)
    case _ => Never
  }

  function BranchPattern(k: int): Pat {
    match k
    case 115 => Branch(EQ)
    case 116 => Branch(NE)
    case 117 => Branch(GT)
    case 118 => Branch(GTU)
    case 120 => Branch(LT)
    case 121 => Branch(LTU)
    case 122 => Branch(GE)
    case 123 => Branch(GEU)
    case 125 => Branch(LE)
    case 126 => Branch(LEU)
    case _ => Never
  }

  function BranchInvertedPattern(k: int): Pat {
    match k
    case 127 => BranchInverted(EQ)
    case 128 => BranchInverted(NE)
    case 129 => BranchInverted(GT)
    case 130 => BranchInverted(GTU)
    case 131 => BranchInverted(LT)
    case 132 => BranchInverted(LTU)
    case 133 => BranchInverted(GE)
    case 134 => BranchInverted(GEU)
    case 135 => BranchInverted(LE)
    case 136 => BranchInverted(LEU)
    case _ => Never
  }

  function JumpPattern(k: int): Pat {
    match k
    case 137 => P2(SET, VOID, Lit(PC_RTX), P1(LABEL_REF, VOID, Op(0, AnyRtx, VOID)))
    case 138 => PPar(P2(SET, VOID, Lit(PC_RTX), Op(0, General, SI)),
      P1(USE, VOID, P1(LABEL_REF, VOID, Op(1, AnyRtx, VOID))))
    case 139 => P2(CALL, VOID, Op(0, Indirect, QI), Op(1, General, SI))
    case 140 => P2(SET, VOID, Op(0, AnyRtx, VOID), P2(CALL, VOID, Op(1, Indirect, QI), Op(2, General, SI)))
    case 141 => Int(0)
    case _ => Never
  }

  function Pattern(k: int): Pat {
    if k < 13 then TestPattern(k)
    else if k < 29 then MovePattern(k)
    else if k < 42 then ConvertPattern(k)
    else if k < 56 then AddSubPattern(k)
    else if k < 68 then MulDivPattern(k)
    else if k < 77 then LogicPattern(k)
    else if k < 87 then NegatePattern(k)
    else if k < 99 then ShiftPattern(k)
    else if k < 105 then RotatePattern(k)
    else if k < 115 then FlagPattern(k)
    else if k < 127 then BranchPattern(k)
    else if k < 137 then BranchInvertedPattern(k)
    else if k < 142 then JumpPattern(k)
    else Never
  }

  // The insn conditions: every code below computes in floating point and
  // carries TARGET_80387; all other conditions are empty.
  predicate Condition(k: int, env: Env) {
    if k < 13 then k in {3, 4, 8, 9} ==> env.t80387
    else if k < 42 then 38 <= k ==> env.t80387
    else if k < 56 then k in {47, 48, 54, 55} ==> env.t80387
    else if k < 64 then 60 <= k ==> env.t80387
    else 80 <= k <= 83 ==> env.t80387
  }

  // The operands extract_k writes, in operand order (cmd/gcc/i486.gen/insn-extract.c).
  function Extract(k: int, x: Rtx): seq<Rtx> {
    if k < 13 then ExtractTest(k, x)
    else if k < 29 then ExtractMove(k, x)
    else if k < 105 then ExtractArith(k, x)
    else if k < 115 then [Xexp(x, 0)]
    else ExtractJump(k, x)
  }

  function ExtractTest(k: int, x: Rtx): seq<Rtx> {
    if k < 3 then [Xexp(x, 1)]
    else if k < 5 then [Xexp(Xvecexp(x, 0), 1)]
    else if k == 8 || k == 9 then [Xexp(Xexp(Xvecexp(x, 0), 1), 0), Xexp(Xexp(Xvecexp(x, 0), 1), 1)]
    else [Xexp(Xexp(x, 1), 0), Xexp(Xexp(x, 1), 1)]
  }

  function ExtractMove(k: int, x: Rtx): seq<Rtx> {
    if 25 <= k < 28 then [Xexp(x, 0), Xexp(Xexp(x, 1), 0)] else [Xexp(x, 0), Xexp(x, 1)]
  }

  function ExtractArith(k: int, x: Rtx): seq<Rtx> {
    if k < 42 || k == 43 || k == 45 || k == 50 || k == 52 || 77 <= k < 87 then
      [Xexp(x, 0), Xexp(Xexp(x, 1), 0)]
    else if k == 64 || k == 65 then []
    else if k == 58 || k == 59 then
      var v := Xvecexp(x, 0);
      [Xexp(v, 0), Xexp(Xexp(v, 1), 0), Xexp(Xexp(v, 1), 1)]
    else if k == 66 || k == 67 then
      var v := Xvecexp(x, 0);
      [Xexp(v, 0), Xexp(Xexp(v, 1), 0), Xexp(Xexp(v, 1), 1), Xexp(Xvecexp(x, 1), 0)]
    else
      [Xexp(x, 0), Xexp(Xexp(x, 1), 0), Xexp(Xexp(x, 1), 1)]
  }

  function ExtractJump(k: int, x: Rtx): seq<Rtx> {
    if k == 119 || k == 124 then []
    else if k < 127 then [Xexp(Xexp(Xexp(x, 1), 1), 0)]
    else if k < 137 then [Xexp(Xexp(Xexp(x, 1), 2), 0)]
    else if k == 137 then [Xexp(Xexp(x, 1), 0)]
    else if k == 138 then [Xexp(Xvecexp(x, 0), 1), Xexp(Xexp(Xvecexp(x, 1), 0), 0)]
    else if k == 139 then [Xexp(x, 0), Xexp(x, 1)]
    else if k == 140 then [Xexp(x, 0), Xexp(Xexp(x, 1), 0), Xexp(Xexp(x, 1), 1)]
    else []
  }

  // recog_dup_loc / recog_dup_num: each repeated operand is rtx-equal to the
  // operand it repeats.
  predicate DupsAgree(k: int, x: Rtx) {
    k == 66 || k == 67 ==>
      && RtxEqual(Xexp(Xexp(Xvecexp(x, 1), 1), 0), Xexp(Xexp(Xvecexp(x, 0), 1), 0))
      && RtxEqual(Xexp(Xexp(Xvecexp(x, 1), 1), 1), Xexp(Xexp(Xvecexp(x, 0), 1), 1))
  }

  // x is an instance of define_insn number k.
  predicate Matches(k: int, x: Rtx, env: Env) {
    Shape(Pattern(k), x, env) && DupsAgree(k, x) && Condition(k, env)
  }

  // r is the answer the machine description prescribes: the least matching
  // code, or -1 when there is none.
  ghost predicate IsFirst(r: int, x: Rtx, env: Env) {
    (r == -1 || Matches(r, x, env)) && forall k :: Matches(k, x, env) ==> 0 <= r <= k
  }

  // The same, restricted to the codes in c.
  ghost predicate FirstIn(r: int, c: set<int>, x: Rtx, env: Env) {
    (r == -1 || (r in c && Matches(r, x, env))) && forall k :: k in c && Matches(k, x, env) ==> 0 <= r <= k
  }

  lemma NoNegativeCode(x: Rtx, env: Env)
    ensures forall k :: k < 0 ==> !Matches(k, x, env)
  {}
}
