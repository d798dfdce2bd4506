// The m68k machine description (cmd/gcc/m68k.gen): one template per insn code,
// as built by insn-emit.c with the operand tables of insn-output.c, the operand
// locations of insn-extract.c and the insn conditions of insn-recog.c.

module M68kDescription {
  import opened Common
  import opened Rtl
  import opened Patterns

  const N_CODES := 264

  // Template shapes particular to this machine.
  function TestBit(m: Mode, position: Pat): Pat {
    P2(SET, VOID, Lit(CC0_RTX), P3(ZERO_EXTRACT, VOID, Op(0, Nonimmediate, m), Int(1), position))
  }

  function FieldPat(c: Code3, p: Predicate, m: Mode): Pat {
    P3(c, SI, Op(0, p, m), Op(1, General, SI), Op(2, General, SI))
  }

  function TestField(p: Predicate, m: Mode): Pat { P2(SET, VOID, Lit(CC0_RTX), FieldPat(ZERO_EXTRACT, p, m)) }

  function TestSubfield(w: Mode, p: Predicate, m: Mode): Pat {
    P2(SET, VOID, Lit(CC0_RTX), PSub(w, FieldPat(ZERO_EXTRACT, p, m), 0))
  }

  function GetField(c: Code3, m: Mode, p: Predicate): Pat {
    P2(SET, VOID, Op(0, General, SI), P3(c, SI, Op(1, Nonimmediate, m), Op(2, p, SI), Op(3, p, SI)))
  }

  function PutField(m: Mode, p: Predicate, source: Pat): Pat {
    P2(SET, VOID, P3(ZERO_EXTRACT, SI, Op(0, Nonimmediate, m), Op(1, p, SI), Op(2, p, SI)), source)
  }

  function StrictMove(m: Mode): Pat {
    P2(SET, VOID, P1(STRICT_LOW_PART, VOID, Op(0, General, m)), Op(1, General, m))
  }

  function StrictBinary(m: Mode, c: Code2): Pat {
    P2(SET, VOID, P1(STRICT_LOW_PART, VOID, Op(0, General, m)), P2(c, m, Dup(0), Op(1, General, m)))
  }

  function TopByte(n: nat, c: Code2): Pat { P2(c, SI, Op(n, Memory, SI), Int(24)) }

  function CompareTop(c: Code2): Pat {
    P2(SET, VOID, Lit(CC0_RTX), P2(COMPARE, VOID, Op(0, General, QI), TopByte(1, c)))
  }

  function TopCompare(c: Code2): Pat {
    P2(SET, VOID, Lit(CC0_RTX), P2(COMPARE, VOID, TopByte(0, c), Op(1, General, QI)))
  }

  function DecrementBranch(m: Mode, condition: Pat): Pat {
    PPar(P2(SET, VOID, Lit(PC_RTX), P3(IF_THEN_ELSE, VOID, condition, Label(1), Lit(PC_RTX))),
         P2(SET, VOID, Dup(0), P2(PLUS, m, Dup(0), Int(-1))))
  }

  function Decremented(m: Mode): Pat { P2(PLUS, m, Op(0, General, m), Int(-1)) }

  function NotMinusOne(m: Mode): Pat {
    P2(NE, VOID, P2(COMPARE, VOID, Decremented(m), Int(-1)), Int(0))
  }

  function FuseLeft(m: Mode, c: Code2, inner: Code2, p: Predicate): Pat {
    P2(SET, VOID, Op(0, Register, m), P2(c, m, P2(inner, m, Op(1, p, m), Op(2, General, m)), Op(3, General, m)))
  }

  function FuseRight(m: Mode, c: Code2, inner: Code2, p: Predicate): Pat {
    P2(SET, VOID, Op(0, Register, m), P2(c, m, Op(1, General, m), P2(inner, m, Op(2, p, m), Op(3, General, m))))
  }

  function TestPattern(k: int): Pat {
    match k
    case 0 => Move(Push, DF)
    case 1 => Move(Push, DI)
    case 2 => Test(SI)
    case 3 => Test(HI)
    case 4 => Test(QI)
    case 6 => WithClobber(Test(SF), Op(1, General, SI))
    case 7 => Test(SF)
    case 9 => WithClobber(Test(DF), Op(1, General, SI))
    case 10 => Test(DF)
    case _ => Never
  }

  function ComparePattern(k: int): Pat {
    match k
    case 11 => TestBinary(COMPARE, VOID, SI)
    case 12 => TestBinary(COMPARE, VOID, HI)
    case 13 => TestBinary(COMPARE, VOID, QI)
    case 15 => WithClobber(TestBinary(COMPARE, VOID, DF), Op(2, General, SI))
    case 16 => TestBinary(COMPARE, VOID, DF)
    case 18 => WithClobber(TestBinary(COMPARE, VOID, SF), Op(2, General, SI))
    case 19 => TestBinary(COMPARE, VOID, SF)
    case _ => Never
  }

  function BitTestPattern(k: int): Pat {
    match k
    case 20 => TestBit(QI, P2(MINUS, SI, Int(7), Op(1, General, SI)))
    case 21 => TestBit(SI, P2(MINUS, SI, Int(31), Op(1, General, SI)))
    case 22 => TestBit(QI, P2(MINUS, SI, Int(7), P2(AND, SI, Op(1, General, SI), Int(7))))
    case 23 => TestBit(SI, P2(MINUS, SI, Int(31), P2(AND, SI, Op(1, General, SI), Int(31))))
    case 24 => TestBit(QI, Op(1, General, SI))
    case 25 => TestBit(HI, Op(1, General, SI))
    case 26 => TestBit(SI, Op(1, General, SI))
    case 27 => P2(SET, VOID, Lit(CC0_RTX), PSub(SI, P2(LSHIFTRT, QI, Op(0, Nonimmediate, QI), Int(7)), 0))
    case 28 => P2(SET, VOID, Lit(CC0_RTX),
      P2(AND, SI, P1(SIGN_EXTEND, SI, P1(SIGN_EXTEND, HI, Op(0, Nonimmediate, QI))), Op(1, General, SI)))
    case _ => Never
  }

  function MovePattern(k: int): Pat {
    match k
    case 29 => Move(Push, SI)
    case 30 => P2(SET, VOID, Op(0, General, SI), Int(0))
    case 31 => Move(General, SI)
    case 32 => Move(General, HI)
    case 33 => StrictMove(HI)
    case 34 => Move(General, QI)
    case 35 => StrictMove(QI)
    case 36 => Move(General, SF)
    case 37 => Move(General, DF)
    case 38 => Move(General, DI)
    case 39 => P2(SET, VOID, Op(0, Push, SI), Op(1, Address, SI))
    case _ => Never
  }

  function ExtendPattern(k: int): Pat {
    match k
    case 40 => Unary(QI, TRUNCATE, QI, SI)
    case 41 => Unary(QI, TRUNCATE, QI, HI)
    case 42 => Unary(HI, TRUNCATE, HI, SI)
    case 46 => Unary(SI, ZERO_EXTEND, SI, HI)
    case 47 => Unary(HI, ZERO_EXTEND, HI, QI)
    case 48 => Unary(SI, ZERO_EXTEND, SI, QI)
    case 49 => Unary(SI, SIGN_EXTEND, SI, HI)
    case 50 => Unary(HI, SIGN_EXTEND, HI, QI)
    case 51 => Unary(SI, SIGN_EXTEND, SI, QI)
    case _ => Never
  }

  function FloatPattern(k: int): Pat {
    match k
    case 53 => Unary(DF, FLOAT_EXTEND, DF, SF)
    case 54 => Unary(DF, FLOAT_EXTEND, DF, SF)
    case 56 => Unary(SF, FLOAT_TRUNCATE, SF, DF)
    case 57 => Unary(SF, FLOAT_TRUNCATE, SF, DF)
    case 59 => Unary(SF, FLOAT, SF, SI)
    case 60 => Unary(SF, FLOAT, SF, SI)
    case 62 => Unary(DF, FLOAT, DF, SI)
    case 63 => Unary(DF, FLOAT, DF, SI)
    case _ => Never
  }

  function FixPattern(k: int): Pat {
    match k
    case 64 => Unary(SF, FLOAT, SF, HI)
    case 65 => Unary(DF, FLOAT, DF, HI)
    case 66 => Unary(SF, FLOAT, SF, QI)
    case 67 => Unary(DF, FLOAT, DF, QI)
    case 68 => Unary(DF, FIX, DF, DF)
    case 69 => Unary(SF, FIX, SF, SF)
    case 70 => Unary(QI, FIX, QI, SF)
    case 71 => Unary(HI, FIX, HI, SF)
    case 72 => Unary(SI, FIX, SI, SF)
    case 73 => Unary(QI, FIX, QI, DF)
    case 74 => Unary(HI, FIX, HI, DF)
    case 75 => Unary(SI, FIX, SI, DF)
    case 76 => P2(SET, VOID, Op(0, General, SI), P1(FIX, SI, P1(FIX, SF, Op(1, General, SF))))
    case 77 => P2(SET, VOID, Op(0, General, SI), P1(FIX, SI, P1(FIX, DF, Op(1, General, DF))))
    case _ => Never
  }

  function AddPattern(k: int): Pat {
    match k
    case 78 => Binary(SI, PLUS, SI, SI, SI)
    case 79 => P2(SET, VOID, Op(0, General, SI),
      P2(PLUS, SI, Op(1, General, SI), P1(SIGN_EXTEND, SI, Op(2, General, HI))))
    case 80 => Binary(HI, PLUS, HI, HI, HI)
    case 81 => StrictBinary(HI, PLUS)
    case 82 => Binary(QI, PLUS, QI, QI, QI)
    case 83 => StrictBinary(QI, PLUS)
    case 85 => Binary(DF, PLUS, DF, DF, DF)
    case 86 => Binary(DF, PLUS, DF, DF, DF)
    case 88 => Binary(SF, PLUS, SF, SF, SF)
    case 89 => Binary(SF, PLUS, SF, SF, SF)
    case _ => Never
  }

  function SubPattern(k: int): Pat {
    match k
    case 90 => Binary(SI, MINUS, SI, SI, SI)
    case 91 => P2(SET, VOID, Op(0, General, SI),
      P2(MINUS, SI, Op(1, General, SI), P1(SIGN_EXTEND, SI, Op(2, General, HI))))
    case 92 => Binary(HI, MINUS, HI, HI, HI)
    case 93 => StrictBinary(HI, MINUS)
    case 94 => Binary(QI, MINUS, QI, QI, QI)
    case 95 => StrictBinary(QI, MINUS)
    case 97 => Binary(DF, MINUS, DF, DF, DF)
    case 98 => Binary(DF, MINUS, DF, DF, DF)
    case 100 => Binary(SF, MINUS, SF, SF, SF)
    case 101 => Binary(SF, MINUS, SF, SF, SF)
    case _ => Never
  }

  function MultPattern(k: int): Pat {
    match k
    case 102 => Binary(HI, MULT, HI, HI, HI)
    case 103 => Binary(SI, MULT, SI, HI, HI)
    case 104 => Binary(SI, MULT, SI, SI, SI)
    case 105 => Binary(HI, UMULT, HI, HI, HI)
    case 106 => Binary(SI, UMULT, SI, HI, HI)
    case 107 => Binary(SI, UMULT, SI, SI, SI)
    case 109 => Binary(DF, MULT, DF, DF, DF)
    case 110 => Binary(DF, MULT, DF, DF, DF)
    case 112 => Binary(SF, MULT, SF, SF, SF)
    case 113 => Binary(SF, MULT, SF, SF, SF)
    case _ => Never
  }

  function DivPattern(k: int): Pat {
    match k
    case 114 => Binary(HI, DIV, HI, HI, HI)
    case 115 => Binary(HI, DIV, HI, SI, HI)
    case 116 => Binary(SI, DIV, SI, SI, SI)
    case 117 => Binary(HI, UDIV, HI, HI, HI)
    case 118 => Binary(HI, UDIV, HI, SI, HI)
    case 119 => Binary(SI, UDIV, SI, SI, SI)
    case 121 => Binary(DF, DIV, DF, DF, DF)
    case 122 => Binary(DF, DIV, DF, DF, DF)
    case 124 => Binary(SF, DIV, SF, SF, SF)
    case 125 => Binary(SF, DIV, SF, SF, SF)
    case _ => Never
  }

  function ModPattern(k: int): Pat {
    match k
    case 126 => Binary(HI, MOD, HI, HI, HI)
    case 127 => Binary(HI, MOD, HI, SI, HI)
    case 128 => Binary(HI, UMOD, HI, HI, HI)
    case 129 => Binary(HI, UMOD, HI, SI, HI)
    case 130 => DivMod(DIV, MOD)
    case 131 => DivMod(UDIV, UMOD)
    case _ => Never
  }

  function LogicPattern(k: int): Pat {
    match k
    case 132 => Binary(SI, AND, SI, SI, SI)
    case 133 => Binary(HI, AND, HI, HI, HI)
    case 134 => Binary(QI, AND, QI, QI, QI)
    case 135 => P2(SET, VOID, Op(0, General, SI),
      P2(AND, SI, P1(ZERO_EXTEND, SI, Op(1, General, HI)), Op(2, General, SI)))
    case 136 => P2(SET, VOID, Op(0, General, SI),
      P2(AND, SI, P1(ZERO_EXTEND, SI, Op(1, General, QI)), Op(2, General, SI)))
    case 137 => Binary(SI, IOR, SI, SI, SI)
    case 138 => Binary(HI, IOR, HI, HI, HI)
    case 139 => Binary(QI, IOR, QI, QI, QI)
    case 140 => Binary(SI, XOR, SI, SI, SI)
    case 141 => Binary(HI, XOR, HI, HI, HI)
    case 142 => Binary(QI, XOR, QI, QI, QI)
    case _ => Never
  }

  function NegatePattern(k: int): Pat {
    match k
    case 143 => Unary(SI, NEG, SI, SI)
    case 144 => Unary(HI, NEG, HI, HI)
    case 145 => Unary(QI, NEG, QI, QI)
    case 147 => Unary(SF, NEG, SF, SF)
    case 148 => Unary(SF, NEG, SF, SF)
    case 150 => Unary(DF, NEG, DF, DF)
    case 151 => Unary(DF, NEG, DF, DF)
    case 153 => Unary(SF, ABS, SF, SF)
    case 154 => Unary(SF, ABS, SF, SF)
    case 156 => Unary(DF, ABS, DF, DF)
    case 157 => Unary(DF, ABS, DF, DF)
    case _ => Never
  }

  function NotPattern(k: int): Pat {
    match k
    case 158 => Unary(SI, NOT, SI, SI)
    case 159 => Unary(HI, NOT, HI, HI)
    case 160 => Unary(QI, NOT, QI, QI)
    case 161 => P2(SET, VOID, Op(0, General, SI), TopByte(1, ASHIFTRT))
    case 162 => P2(SET, VOID, Op(0, General, SI), TopByte(1, LSHIFTRT))
    case 163 => CompareTop(LSHIFTRT)
    case 164 => TopCompare(LSHIFTRT)
    case 165 => CompareTop(ASHIFTRT)
    case 166 => TopCompare(ASHIFTRT)
    case _ => Never
  }

  function ShiftLeftPattern(k: int): Pat {
    match k
    case 167 => Binary(SI, ASHIFT, SI, SI, SI)
    case 168 => Binary(HI, ASHIFT, HI, HI, HI)
    case 169 => Binary(QI, ASHIFT, QI, QI, QI)
    case 170 => Binary(SI, ASHIFTRT, SI, SI, SI)
    case 171 => Binary(HI, ASHIFTRT, HI, HI, HI)
    case 172 => Binary(QI, ASHIFTRT, QI, QI, QI)
    case 173 => Binary(SI, LSHIFT, SI, SI, SI)
    case 174 => Binary(HI, LSHIFT, HI, HI, HI)
    case 175 => Binary(QI, LSHIFT, QI, QI, QI)
    case _ => Never
  }

  function ShiftRightPattern(k: int): Pat {
    match k
    case 176 => Binary(SI, LSHIFTRT, SI, SI, SI)
    case 177 => Binary(HI, LSHIFTRT, HI, HI, HI)
    case 178 => Binary(QI, LSHIFTRT, QI, QI, QI)
    case 179 => Binary(SI, ROTATE, SI, SI, SI)
    case 180 => Binary(HI, ROTATE, HI, HI, HI)
    case 181 => Binary(QI, ROTATE, QI, QI, QI)
    case 182 => Binary(SI, ROTATERT, SI, SI, SI)
    case 183 => Binary(HI, ROTATERT, HI, HI, HI)
    case 184 => Binary(QI, ROTATERT, QI, QI, QI)
    case _ => Never
  }

  function FieldPattern(k: int): Pat {
    match k
    case 185 => PutField(SI, Immediate, Op(3, General, SI))
    case 186 => GetField(ZERO_EXTRACT, SI, Immediate)
    case 187 => GetField(SIGN_EXTRACT, SI, Immediate)
    case 188 => GetField(SIGN_EXTRACT, QI, General)
    case 189 => GetField(ZERO_EXTRACT, QI, General)
    case 190 => PutField(QI, General, P2(XOR, SI, P3(ZERO_EXTRACT, SI, Dup(0), Dup(1), Dup(2)), Op(3, Immediate, VOID)))
    case 191 => PutField(QI, General, Int(0))
    case 192 => PutField(QI, General, Int(-1))
    case _ => Never
  }

  function FieldSiPattern(k: int): Pat {
    match k
    case 193 => PutField(QI, General, Op(3, General, SI))
    case 194 => GetField(SIGN_EXTRACT, SI, General)
    case 195 => GetField(ZERO_EXTRACT, SI, General)
    case 196 => PutField(SI, General, Int(0))
    case 197 => PutField(SI, General, Int(-1))
    case 198 => PutField(SI, General, Op(3, General, SI))
    case 199 => TestField(Memory, QI)
    case 200 => TestSubfield(QI, Memory, QI)
    case 201 => TestSubfield(HI, Memory, QI)
    case 202 => TestField(Nonimmediate, SI)
    case 203 => TestSubfield(QI, Nonimmediate, SI)
    case 204 => TestSubfield(HI, Nonimmediate, SI)
    case _ => Never
  }

  function FlagPattern(k: int): Pat {
    match k
    case 205 => StoreFlag(EQ)
    case 206 => StoreFlag(NE)
    case 207 => StoreFlag(GT)
    case 208 => StoreFlag(GTU)
    case 209 => StoreFlag(LT)
    case 210 => StoreFlag(LTU)
    case 211 => StoreFlag(GE)
    case 212 => StoreFlag(GEU)
    case 213 => StoreFlag(LE)
    case 214 => StoreFlag(LEU)
    case _ => Never
  }

  function BranchPattern(k: int): Pat {
    match k
    case 215 => Branch(EQ)
    case 216 => Branch(NE)
    case 217 => Branch(GT)
    case 218 => Branch(GTU)
    case 219 => Branch(LT)
    case 220 => Branch(LTU)
    case 221 => Branch(GE)
    case 222 => Branch(GEU)
    case 223 => Branch(LE)
    case 224 => Branch(LEU)
    case _ => Never
  }

  function BranchInvertedPattern(k: int): Pat {
    match k
    case 225 => BranchInverted(EQ)
    case 226 => BranchInverted(NE)
    case 227 => BranchInverted(GT)
    case 228 => BranchInverted(GTU)
    case 229 => BranchInverted(LT)
    case 230 => BranchInverted(LTU)
    case 231 => BranchInverted(GE)
    case 232 => BranchInverted(GEU)
    case 233 => BranchInverted(LE)
    case 234 => BranchInverted(LEU)
    case _ => Never
  }

  function JumpPattern(k: int): Pat {
    match k
    case 238 => PPar(P2(SET, VOID, Lit(PC_RTX), P2(PLUS, SI, Lit(PC_RTX), Op(0, General, HI))), P1(USE, VOID, Label(1)))
    case 239 => P2(SET, VOID, Lit(PC_RTX), Label(0))
    case 240 => DecrementBranch(HI, NotMinusOne(HI))
    case 241 => DecrementBranch(SI, NotMinusOne(SI))
    case 242 => DecrementBranch(SI, P2(GE, VOID, Decremented(SI), Int(0)))
    case 243 => P2(CALL, VOID, Op(0, General, QI), Op(1, General, SI))
    case 244 => P2(SET, VOID, Op(0, AnyRtx, VOID), P2(CALL, VOID, Op(1, General, QI), Op(2, General, SI)))
    case 245 => Int(0)
    case 246 => P2(SET, VOID, Op(0, General, SI), Op(1, Address, QI))
    case _ => Never
  }

  function MultiplyAddPattern(k: int): Pat {
    match k
    case 248 => FuseLeft(DF, PLUS, MULT, General)
    case 249 => FuseRight(DF, PLUS, MULT, General)
    case 250 => FuseLeft(SF, PLUS, MULT, General)
    case 251 => FuseRight(SF, PLUS, MULT, General)
    case 252 => FuseRight(DF, MINUS, MULT, Register)
    case 253 => FuseRight(SF, MINUS, MULT, Register)
    case 254 => FuseLeft(DF, MINUS, MULT, Register)
    case 255 => FuseLeft(SF, MINUS, MULT, Register)
    case 256 => FuseLeft(DF, MULT, PLUS, Register)
    case 257 => FuseRight(DF, MULT, PLUS, Register)
    case 258 => FuseLeft(SF, MULT, PLUS, Register)
    case 259 => FuseRight(SF, MULT, PLUS, Register)
    case 260 => FuseLeft(DF, MULT, MINUS, Register)
    case 261 => FuseRight(DF, MULT, MINUS, Register)
    case 262 => FuseLeft(SF, MULT, MINUS, Register)
    case 263 => FuseRight(SF, MULT, MINUS, Register)
    case _ => Never
  }

  function Pattern(k: int): Pat {
    if k < 11 then TestPattern(k)
    else if k < 20 then ComparePattern(k)
    else if k < 29 then BitTestPattern(k)
    else if k < 40 then MovePattern(k)
    else if k < 53 then ExtendPattern(k)
    else if k < 64 then FloatPattern(k)
    else if k < 78 then FixPattern(k)
    else if k < 90 then AddPattern(k)
    else if k < 102 then SubPattern(k)
    else if k < 114 then MultPattern(k)
    else if k < 126 then DivPattern(k)
    else if k < 132 then ModPattern(k)
    else if k < 143 then LogicPattern(k)
    else if k < 158 then NegatePattern(k)
    else if k < 167 then NotPattern(k)
    else if k < 176 then ShiftLeftPattern(k)
    else if k < 185 then ShiftRightPattern(k)
    else if k < 193 then FieldPattern(k)
    else if k < 205 then FieldSiPattern(k)
    else if k < 215 then FlagPattern(k)
    else if k < 225 then BranchPattern(k)
    else if k < 235 then BranchInvertedPattern(k)
    else if k < 248 then JumpPattern(k)
    else if k < 264 then MultiplyAddPattern(k)
    else Never
  }

  // The operands extract_k writes, in operand order (cmd/gcc/m68k.gen/insn-extract.c).
  function Extract(k: int, x: Rtx): seq<Rtx> {
    if k < 29 then ExtractTest(k, x)
    else if k < 40 then ExtractMove(k, x)
    else if k < 143 then ExtractArith(k, x)
    else if k < 185 then ExtractShift(k, x)
    else if k < 205 then ExtractField(k, x)
    else if k < 248 then ExtractJump(k, x)
    else ExtractMultiplyAdd(k, x)
  }

  function ExtractTest(k: int, x: Rtx): seq<Rtx> {
    var s := Xexp(x, 1);
    var v := Xexp(Xvecexp(x, 0), 1);
    if k < 2 then [Xexp(x, 0), s]
    else if k in {2, 3, 4, 7, 10} then [s]
    else if k in {6, 9} then [v, Xexp(Xvecexp(x, 1), 0)]
    else if k in {15, 18} then [Xexp(v, 0), Xexp(v, 1), Xexp(Xvecexp(x, 1), 0)]
    else if k in {11, 12, 13, 16, 19} then [Xexp(s, 0), Xexp(s, 1)]
    else if k in {20, 21} then [Xexp(s, 0), Xexp(Xexp(s, 2), 1)]
    else if k in {22, 23} then [Xexp(s, 0), Xexp(Xexp(Xexp(s, 2), 1), 0)]
    else if k in {24, 25, 26} then [Xexp(s, 0), Xexp(s, 2)]
    else if k == 27 then [Xexp(Xexp(s, 0), 0)]
    else if k == 28 then [Xexp(Xexp(Xexp(s, 0), 0), 0), Xexp(s, 1)]
    else []
  }

  function ExtractMove(k: int, x: Rtx): seq<Rtx> {
    if k == 30 then [Xexp(x, 0)]
    else if k == 33 || k == 35 then [Xexp(Xexp(x, 0), 0), Xexp(x, 1)]
    else [Xexp(x, 0), Xexp(x, 1)]
  }

  function ExtractArith(k: int, x: Rtx): seq<Rtx> {
    var d, s := Xexp(x, 0), Xexp(x, 1);
    if k < 76 then [d, Xexp(s, 0)]
    else if k < 78 then [d, Xexp(Xexp(s, 0), 0)]
    else if k == 79 || k == 91 then [d, Xexp(s, 0), Xexp(Xexp(s, 1), 0)]
    else if k in {81, 83, 93, 95} then [Xexp(d, 0), Xexp(s, 1)]
    else if k == 130 || k == 131 then
      var v := Xvecexp(x, 0);
      [Xexp(v, 0), Xexp(Xexp(v, 1), 0), Xexp(Xexp(v, 1), 1), Xexp(Xvecexp(x, 1), 0)]
    else if k == 135 || k == 136 then [d, Xexp(Xexp(s, 0), 0), Xexp(s, 1)]
    else [d, Xexp(s, 0), Xexp(s, 1)]
  }

  function ExtractShift(k: int, x: Rtx): seq<Rtx> {
    var d, s := Xexp(x, 0), Xexp(x, 1);
    if k < 163 then [d, Xexp(s, 0)]
    else if k == 163 || k == 165 then [Xexp(s, 0), Xexp(Xexp(s, 1), 0)]
    else if k == 164 || k == 166 then [Xexp(Xexp(s, 0), 0), Xexp(s, 1)]
    else [d, Xexp(s, 0), Xexp(s, 1)]
  }

  function ExtractField(k: int, x: Rtx): seq<Rtx> {
    var d, s := Xexp(x, 0), Xexp(x, 1);
    if k in {185, 193, 198} then [Xexp(d, 0), Xexp(d, 1), Xexp(d, 2), s]
    else if k == 190 then [Xexp(d, 0), Xexp(d, 1), Xexp(d, 2), Xexp(s, 1)]
    else if k in {191, 192, 196, 197} then [Xexp(d, 0), Xexp(d, 1), Xexp(d, 2)]
    else if k < 199 then [d, Xexp(s, 0), Xexp(s, 1), Xexp(s, 2)]
    else if k == 199 || k == 202 then [Xexp(s, 0), Xexp(s, 1), Xexp(s, 2)]
    else [Xexp(Xexp(s, 0), 0), Xexp(Xexp(s, 0), 1), Xexp(Xexp(s, 0), 2)]
  }

  function ExtractJump(k: int, x: Rtx): seq<Rtx> {
    var d, s := Xexp(x, 0), Xexp(x, 1);
    var v := Xexp(Xvecexp(x, 0), 1);
    if k < 215 then [d]
    else if k < 225 then [Xexp(Xexp(s, 1), 0)]
    else if k < 235 then [Xexp(Xexp(s, 2), 0)]
    else if k == 238 then [Xexp(v, 1), Xexp(Xexp(Xvecexp(x, 1), 0), 0)]
    else if k == 239 then [Xexp(s, 0)]
    else if k == 240 || k == 241 then [Xexp(Xexp(Xexp(Xexp(v, 0), 0), 0), 0), Xexp(Xexp(v, 1), 0)]
    else if k == 242 then [Xexp(Xexp(Xexp(v, 0), 0), 0), Xexp(Xexp(v, 1), 0)]
    else if k == 243 || k == 246 then [d, s]
    else if k == 244 then [d, Xexp(s, 0), Xexp(s, 1)]
    else []
  }

  function ExtractMultiplyAdd(k: int, x: Rtx): seq<Rtx> {
    var d, s := Xexp(x, 0), Xexp(x, 1);
    if k in {248, 250, 254, 255, 256, 258, 260, 262} then
      [d, Xexp(Xexp(s, 0), 0), Xexp(Xexp(s, 0), 1), Xexp(s, 1)]
    else
      [d, Xexp(s, 0), Xexp(Xexp(s, 1), 0), Xexp(Xexp(s, 1), 1)]
  }

  // recog_dup_loc / recog_dup_num: each repeated operand is rtx-equal to the
  // operand it repeats.
  predicate DupsAgree(k: int, x: Rtx) {
    if k in {81, 83, 93, 95} then RtxEqual(Xexp(Xexp(x, 1), 0), Xexp(Xexp(x, 0), 0))
    else if k == 130 || k == 131 then
      var s, t := Xexp(Xvecexp(x, 0), 1), Xexp(Xvecexp(x, 1), 1);
      RtxEqual(Xexp(t, 0), Xexp(s, 0)) && RtxEqual(Xexp(t, 1), Xexp(s, 1))
    else if k == 190 then
      var d, s := Xexp(x, 0), Xexp(Xexp(x, 1), 0);
      RtxEqual(Xexp(s, 0), Xexp(d, 0)) && RtxEqual(Xexp(s, 1), Xexp(d, 1)) && RtxEqual(Xexp(s, 2), Xexp(d, 2))
    else if 240 <= k <= 242 then
      var o, e := Operand(k, x, 0), Xvecexp(x, 1);
      RtxEqual(Xexp(e, 0), o) && RtxEqual(Xexp(Xexp(e, 1), 0), o)
    else true
  }

  // operands[i] of an insn with code k; operand 0 of code 190 and the like always exist.
  function Operand(k: int, x: Rtx, i: nat): Rtx {
    var e := Extract(k, x);
    if i < |e| then e[i] else x
  }

  // INTVAL read as an unsigned int is below n.
  predicate UnsignedBelow(x: Rtx, n: int) { Is0(x, CONST_INT) && x.val % 0x1_0000_0000 < n }

  // The target switches an insn depends on.
  predicate Switches(k: int, env: Env) {
    if k < 20 then (k in {6, 9, 15, 18} ==> env.tFpa) && (k in {7, 10, 16, 19} ==> env.t68881)
    else if k < 53 then k == 51 ==> env.t68020
    else if k < 64 then (k in {53, 56, 59, 62} ==> env.tFpa) && (k in {54, 57, 60, 63} ==> env.t68881)
    else if k < 78 then if k < 76 then env.t68881 else env.tFpa
    else if k < 102 then (k in {85, 88, 97, 100} ==> env.tFpa) && (k in {86, 89, 98, 101} ==> env.t68881)
    else if k < 132 then
      && (k in {109, 112, 121, 124} ==> env.tFpa) && (k in {110, 113, 122, 125} ==> env.t68881)
      && (k in {104, 107, 116, 119, 130, 131} ==> env.t68020)
    else if k < 158 then (k in {147, 150, 153, 156} ==> env.tFpa) && (k in {148, 151, 154, 157} ==> env.t68881)
    else if k < 185 then true
    else if k < 205 then env.t68020 && env.tBitfield
    else (k == 242 ==> env.nonneg) && (248 <= k ==> env.tFpa)
  }

  // The address of a memory operand is neither postincrement nor predecrement.
  predicate Rereadable(x: Rtx) { !Is1(Xexp(x, 0), POST_INC) && !Is1(Xexp(x, 0), PRE_DEC) }

  predicate ByteConstant(x: Rtx) { Is0(x, CONST_INT) && 0 <= x.val <= 0xff }

  predicate SignedByteConstant(x: Rtx) { Is0(x, CONST_INT) && 0 <= x.val + 0x80 <= 0xff }

  // A field of 8 or 16 bits at a multiple of its width, in a place that can be
  // addressed at an offset.
  predicate WholeUnit(place: Rtx, width: Rtx, position: Rtx, env: Env) {
    && Is0(width, CONST_INT) && (width.val == 8 || width.val == 16)
    && Is0(position, CONST_INT) && position.val % width.val == 0
    && (Is0(place, REG) || !env.modeDependent(Xexp(place, 0)))
  }

  // ~ v & ((1 << w) - 1) is zero.
  predicate LowBitsSet(v: int, w: int, env: Env) {
    if 0 <= w < 32 then (v + 1) % Pow2(w) == 0 else env.wideShift(v, w)
  }

  predicate ComplementsField(mask: Rtx, width: Rtx, env: Env) {
    Is0(mask, CONST_INT) && (mask.val == -1 || (Is0(width, CONST_INT) && LowBitsSet(mask.val, width.val, env)))
  }

  // The insn conditions that look at the operands.
  predicate OperandCondition(k: int, x: Rtx, env: Env) {
    if k < 24 then true
    else if k < 40 then MoveCondition(k, x, env)
    else if k < 161 then
      (k == 135 ==> UnsignedBelow(Operand(k, x, 2), 0x1_0000)) && (k == 136 ==> UnsignedBelow(Operand(k, x, 2), 0x100))
    else if k < 167 then TopByteCondition(k, x)
    else if k < 205 then FieldCondition(k, x, env)
    else true
  }

  predicate MoveCondition(k: int, x: Rtx, env: Env) {
    var o := Operand(k, x, 1);
    if k == 24 then UnsignedBelow(o, 8)
    else if k == 25 || k == 26 then Is0(o, CONST_INT)
    else if k == 28 then Is0(o, CONST_INT) && o.val in {1, 2, 4, 8, 16, 32, 64, 128}
    else if k == 29 then Is0(o, CONST_INT) && -0x8000 <= o.val < 0x8000
    else if k == 30 then env.t68020 || !(Operand(k, x, 0).Mem? && Operand(k, x, 0).volatil)
    else true
  }

  predicate TopByteCondition(k: int, x: Rtx) {
    var o, p := Operand(k, x, 0), Operand(k, x, 1);
    match k
    case 163 => ByteConstant(o) && Rereadable(p)
    case 164 => ByteConstant(p) && Rereadable(o)
    case 165 => SignedByteConstant(o) && Rereadable(p)
    case 166 => SignedByteConstant(p) && Rereadable(o)
    case _ => Rereadable(p)
  }

  predicate FieldCondition(k: int, x: Rtx, env: Env) {
    if k == 185 then WholeUnit(Operand(k, x, 0), Operand(k, x, 1), Operand(k, x, 2), env)
    else if k == 186 || k == 187 then WholeUnit(Operand(k, x, 1), Operand(k, x, 2), Operand(k, x, 3), env)
    else if k == 190 then ComplementsField(Operand(k, x, 3), Operand(k, x, 1), env)
    else if 199 <= k then Is0(Operand(k, x, 1), CONST_INT)
    else true
  }

  predicate Condition(k: int, x: Rtx, env: Env) {
    Switches(k, env) && OperandCondition(k, x, env)
  }

  // x is an instance of define_insn number k.
  predicate Matches(k: int, x: Rtx, env: Env) {
    Shape(Pattern(k), x, env) && DupsAgree(k, x) && Condition(k, x, env)
  }

  // r is the answer the machine description prescribes: the least matching
  // code, or -1 when there is none.
  ghost predicate IsFirst(r: int, x: Rtx, env: Env) {
    (r == -1 || Matches(r, x, env)) && forall k :: Matches(k, x, env) ==> 0 <= r <= k
  }

  // The same, restricted to the codes in c.
  ghost predicate FirstIn(r: int, c: set<int>, x: Rtx, env: Env) {
    (r == -1 || (r in c && Matches(r, x, env))) && forall k :: k in c && Matches(k, x, env) ==> 0 <= r <= k
  }

  lemma NoNegativeCode(x: Rtx, env: Env)
    ensures forall k :: k < 0 ==> !Matches(k, x, env)
  {}
}
