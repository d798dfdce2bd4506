// Which insn codes a SET can possibly match, read off the machine description
// one group of templates at a time.

module I486Index {
  import opened Rtl
  import opened Patterns
  import opened I486Description

  // Codes whose destination is (cc0) or (pc).
  function CcCodes(s: Rtx): set<int> {
    match s
    case X2(COMPARE, _, _, _) => {0, 1, 2, 5, 6, 7}
    case X2(AND, SI, _, _) => {0, 1, 2, 10}
    case X2(AND, HI, _, _) => {0, 1, 2, 11}
    case X2(AND, QI, _, _) => {0, 1, 2, 12}
    case _ => {0, 1, 2}
  }

  function PcCodes(s: Rtx): set<int> {
    match s
    case X1(LABEL_REF, _, _) => {137}
    case X3(IF_THEN_ELSE, _, X2(c, _, _, _), _, _) => BranchCodes(c)
    case _ => {}
  }

  function BranchCodes(c: Code2): set<int> {
    match c
    case EQ => {115, 127}
    case NE => {116, 128}
    case GT => {117, 129}
    case GTU => {118, 130}
    case LT => {120, 131}
    case LTU => {121, 132}
    case GE => {122, 133}
    case GEU => {123, 134}
    case LE => {125, 135}
    case LEU => {126, 136}
    case _ => {}
  }

  // Codes whose destination is an operand of mode m.
  function MoveCodes(m: Mode): set<int> {
    match m
    case SI => {13, 14, 28}
    case HI => {15, 16}
    case QI => {17, 18}
    case SF => {19, 20}
    case DF => {21, 22}
    case DI => {23, 24}
    case _ => {}
  }

  function SourceCodes(m: Mode, s: Rtx): set<int> {
    match (m, s)
    case (QI, X1(TRUNCATE, QI, _)) => {29, 30}
    case (QI, X2(PLUS, QI, _, _)) => {45, 46}
    case (QI, X2(MINUS, QI, _, _)) => {52, 53}
    case (HI, X2(PLUS, HI, _, _)) => {43, 44}
    case (HI, X2(MINUS, HI, _, _)) => {50, 51}
    case (SI, X2(PLUS, SI, _, _)) => {25, 26, 42}
    case (SI, X2(MINUS, SI, _, _)) => {27, 49}
    case (SI, X1(ZERO_EXTEND, SI, _)) => {32, 34}
    case (SI, X1(SIGN_EXTEND, SI, _)) => {35, 37}
    case (QI, X2(c, _, _, _)) => if StoreFlagCode(c) != -1 then {StoreFlagCode(c)} else {SoleCode(m, s)}
    case _ => {SoleCode(m, s)}
  }

  // The insn code to which the switch on the source's code leads once the
  // moves, inc and dec have failed (L123 of recog_2; L131, L135, L163 and L159 of recog_3).
  function SoleCode(m: Mode, s: Rtx): int {
    match m
    case QI => QiCode(s)
    case HI => HiCode(s)
    case SI => SiCode(s)
    case SF => SfCode(s)
    case DF => DfCode(s)
    case _ => -1
  }

  function StoreFlagCode(c: Code2): int {
    match c
    case EQ => 105
    case NE => 106
    case GT => 107
    case GTU => 108
    case LT => 109
    case LTU => 110
    case GE => 111
    case GEU => 112
    case LE => 113
    case LEU => 114
    case _ => -1
  }

  function QiCode(s: Rtx): int {
    match s
    case X2(AND, QI, _, _) => 70
    case X2(IOR, QI, _, _) => 73
    case X2(XOR, QI, _, _) => 76
    case X1(NEG, QI, _) => 79
    case X1(NOT, QI, _) => 86
    case X2(ASHIFT, QI, _, _) => 89
    case X2(ASHIFTRT, QI, _, _) => 92
    case X2(LSHIFT, QI, _, _) => 95
    case X2(LSHIFTRT, QI, _, _) => 98
    case X2(ROTATE, QI, _, _) => 101
    case X2(ROTATERT, QI, _, _) => 104
    case _ => -1
  }

  function HiCode(s: Rtx): int {
    match s
    case X1(TRUNCATE, HI, _) => 31
    case X1(ZERO_EXTEND, HI, _) => 33
    case X1(SIGN_EXTEND, HI, _) => 36
    case X2(MULT, SI, _, _) => 56
    case X2(AND, HI, _, _) => 69
    case X2(IOR, HI, _, _) => 72
    case X2(XOR, HI, _, _) => 75
    case X1(NEG, HI, _) => 78
    case X1(NOT, HI, _) => 85
    case X2(ASHIFT, HI, _, _) => 88
    case X2(ASHIFTRT, HI, _, _) => 91
    case X2(LSHIFT, HI, _, _) => 94
    case X2(LSHIFTRT, HI, _, _) => 97
    case X2(ROTATE, HI, _, _) => 100
    case X2(ROTATERT, HI, _, _) => 103
    case _ => -1
  }

  function SiCode(s: Rtx): int {
    match s
    case X2(PLUS, SI, _, _) => 42
    case X2(MINUS, SI, _, _) => 49
    case X2(MULT, SI, _, _) => 57
    case X2(AND, SI, _, _) => 68
    case X2(IOR, SI, _, _) => 71
    case X2(XOR, SI, _, _) => 74
    case X1(NEG, SI, _) => 77
    case X1(NOT, SI, _) => 84
    case X2(ASHIFT, SI, _, _) => 87
    case X2(ASHIFTRT, SI, _, _) => 90
    case X2(LSHIFT, SI, _, _) => 93
    case X2(LSHIFTRT, SI, _, _) => 96
    case X2(ROTATE, SI, _, _) => 99
    case X2(ROTATERT, SI, _, _) => 102
    case _ => -1
  }

  function SfCode(s: Rtx): int {
    match s
    case X1(FLOAT_TRUNCATE, SF, _) => 39
    case X1(FLOAT, SF, _) => 40
    case X2(PLUS, SF, _, _) => 48
    case X2(MINUS, SF, _, _) => 55
    case X2(MULT, SF, _, _) => 61
    case X2(DIV, SF, _, _) => 63
    case X1(NEG, SF, _) => 80
    case X1(ABS, SF, _) => 82
    case _ => -1
  }

  function DfCode(s: Rtx): int {
    match s
    case X1(FLOAT_EXTEND, DF, _) => 38
    case X1(FLOAT, DF, _) => 41
    case X2(PLUS, DF, _, _) => 47
    case X2(MINUS, DF, _, _) => 54
    case X2(MULT, DF, _, _) => 60
    case X2(DIV, DF, _, _) => 62
    case X1(NEG, DF, _) => 81
    case X1(ABS, DF, _) => 83
    case _ => -1
  }

  // The mode of the operand of a unary source with a single code.
  function ArgMode(m: Mode, c: Code1): Mode {
    match c
    case TRUNCATE => SI
    case ZERO_EXTEND => QI
    case SIGN_EXTEND => QI
    case FLOAT => SI
    case FLOAT_EXTEND => SF
    case FLOAT_TRUNCATE => DF
    case _ => m
  }

  predicate FlagFor(m: Mode, env: Env) { m == SF || m == DF ==> env.t80387 }

  // What the machine description says about the code the switch picks.
  predicate SoleRow(m: Mode, s: Rtx, k: int, x: Rtx, env: Env)
    requires Is2(x, SET) && x.right == s
  {
    && DupsAgree(k, x) && Condition(k, env) == FlagFor(m, env)
    && match s
       case X1(c, n, a) =>
         Pattern(k) == Unary(m, c, n, ArgMode(m, c)) && Extract(k, x) == [x.left, a]
       case X2(c, n, a, b) =>
         Pattern(k) == Binary(m, c, n, m, m) && Extract(k, x) == [x.left, a, b]
       case _ => false
  }

  lemma SoleCodeRow(m: Mode, s: Rtx, x: Rtx, env: Env)
    requires Is2(x, SET) && x.right == s && SoleCode(m, s) != -1
    ensures SoleCode(m, s) >= 0 && SoleRow(m, s, SoleCode(m, s), x, env)
  {
    match m {
      case QI => QiRow(s, x, env);
      case HI => HiRow(s, x, env);
      case SI => SiRow(s, x, env);
      case SF => SfRow(s, x, env);
      case DF => DfRow(s, x, env);
      case _ => assert false;
    }
  }

  lemma StoreFlagRow(c: Code2, x: Rtx, env: Env)
    requires Is2(x, SET) && StoreFlagCode(c) != -1
    ensures var k := StoreFlagCode(c);
      && k >= 0
      && (Matches(k, x, env) <==> env.accepts(General, x.left, QI) && IsFlag(c, x.right))
      && Extract(k, x) == [x.left]
  {
    StoreFlagShape(c, x, env);
  }

  lemma QiRow(s: Rtx, x: Rtx, env: Env)
    requires Is2(x, SET) && x.right == s && QiCode(s) != -1
    ensures SoleRow(QI, s, QiCode(s), x, env)
  {}

  lemma HiRow(s: Rtx, x: Rtx, env: Env)
    requires Is2(x, SET) && x.right == s && HiCode(s) != -1
    ensures SoleRow(HI, s, HiCode(s), x, env)
  {}

  lemma SiRow(s: Rtx, x: Rtx, env: Env)
    requires Is2(x, SET) && x.right == s && SiCode(s) != -1
    ensures SoleRow(SI, s, SiCode(s), x, env)
  {}

  lemma SfRow(s: Rtx, x: Rtx, env: Env)
    requires Is2(x, SET) && x.right == s && SfCode(s) != -1
    ensures SoleRow(SF, s, SfCode(s), x, env)
  {}

  lemma DfRow(s: Rtx, x: Rtx, env: Env)
    requires Is2(x, SET) && x.right == s && DfCode(s) != -1
    ensures SoleRow(DF, s, DfCode(s), x, env)
  {}

  function OperandCodes(x: Rtx): set<int>
    requires Is2(x, SET)
  {
    MoveCodes(x.left.mode) + SourceCodes(x.left.mode, x.right)
  }

  // Every code a (set d s) can match.
  function SetCodes(d: Rtx, s: Rtx): set<int> {
    (if d == CC0_RTX then CcCodes(s)
     else if d == PC_RTX then PcCodes(s)
     else OperandCodes(X2(SET, VOID, d, s)))
    + (if Is2(s, CALL) then {140} else {})
  }

  lemma TestIndex(k: int, d: Rtx, s: Rtx)
    requires k < 13 && Head(TestPattern(k), d, s)
    ensures k in SetCodes(d, s)
  { hide OperandForm; }

  lemma MoveIndex(k: int, d: Rtx, s: Rtx)
    requires 13 <= k < 25 && Head(MovePattern(k), d, s)
    ensures k in SetCodes(d, s)
  {
    hide OperandForm;
    hide SoleCode;
    hide CcCodes;
    hide PcCodes;
  }

  lemma StepIndex(k: int, d: Rtx, s: Rtx)
    requires 25 <= k < 29 && Head(MovePattern(k), d, s)
    ensures k in SetCodes(d, s)
  {
    hide OperandForm;
    hide SoleCode;
    hide CcCodes;
    hide PcCodes;
  }

  lemma IntegerConvertIndex(k: int, d: Rtx, s: Rtx)
    requires 29 <= k < 35 && Head(ConvertPattern(k), d, s)
    ensures k in SetCodes(d, s)
  { hide OperandForm; }

  lemma WideConvertIndex(k: int, d: Rtx, s: Rtx)
    requires 35 <= k < 42 && Head(ConvertPattern(k), d, s)
    ensures k in SetCodes(d, s)
  { hide OperandForm; }

  lemma AddIndex(k: int, d: Rtx, s: Rtx)
    requires 42 <= k < 49 && Head(AddSubPattern(k), d, s)
    ensures k in SetCodes(d, s)
  {
    hide OperandForm;
    hide CcCodes;
    hide PcCodes;
    hide MoveCodes;
  }

  lemma SubIndex(k: int, d: Rtx, s: Rtx)
    requires 49 <= k < 56 && Head(AddSubPattern(k), d, s)
    ensures k in SetCodes(d, s)
  {
    hide OperandForm;
    hide CcCodes;
    hide PcCodes;
    hide MoveCodes;
  }

  lemma MultiplyIndex(k: int, d: Rtx, s: Rtx)
    requires 56 <= k < 60 && Head(MulDivPattern(k), d, s)
    ensures k in SetCodes(d, s)
  {
    hide OperandForm;
    hide CcCodes;
    hide PcCodes;
    hide MoveCodes;
  }

  lemma DivideIndex(k: int, d: Rtx, s: Rtx)
    requires 60 <= k < 68 && Head(MulDivPattern(k), d, s)
    ensures k in SetCodes(d, s)
  {
    hide OperandForm;
    hide CcCodes;
    hide PcCodes;
    hide MoveCodes;
  }

  lemma AndIndex(k: int, d: Rtx, s: Rtx)
    requires 68 <= k < 71 && Head(LogicPattern(k), d, s)
    ensures k in SetCodes(d, s)
  {
    hide OperandForm;
    hide CcCodes;
    hide PcCodes;
    hide MoveCodes;
  }

  lemma OrIndex(k: int, d: Rtx, s: Rtx)
    requires 71 <= k < 74 && Head(LogicPattern(k), d, s)
    ensures k in SetCodes(d, s)
  {
    hide OperandForm;
    hide CcCodes;
    hide PcCodes;
    hide SfCode;
    hide DfCode;
    hide MoveCodes;
  }

  lemma XorIndex(k: int, d: Rtx, s: Rtx)
    requires 74 <= k < 77 && Head(LogicPattern(k), d, s)
    ensures k in SetCodes(d, s)
  {
    hide OperandForm;
    hide CcCodes;
    hide PcCodes;
    hide SfCode;
    hide DfCode;
    hide MoveCodes;
  }

  lemma NegateIndex(k: int, d: Rtx, s: Rtx)
    requires 77 <= k < 87 && Head(NegatePattern(k), d, s)
    ensures k in SetCodes(d, s)
  {
    hide OperandForm;
    hide CcCodes;
    hide PcCodes;
    hide MoveCodes;
  }

  lemma DoublingShiftIndex(k: int, d: Rtx, s: Rtx)
    requires 87 <= k < 90 && Head(ShiftPattern(k), d, s)
    ensures k in SetCodes(d, s)
  {
    hide OperandForm;
    hide CcCodes;
    hide PcCodes;
    hide SfCode;
    hide DfCode;
    hide MoveCodes;
  }

  lemma ArithmeticShiftIndex(k: int, d: Rtx, s: Rtx)
    requires 90 <= k < 93 && Head(ShiftPattern(k), d, s)
    ensures k in SetCodes(d, s)
  {
    hide OperandForm;
    hide CcCodes;
    hide PcCodes;
    hide SfCode;
    hide DfCode;
    hide MoveCodes;
  }

  lemma LeftShiftIndex(k: int, d: Rtx, s: Rtx)
    requires 93 <= k < 96 && Head(ShiftPattern(k), d, s)
    ensures k in SetCodes(d, s)
  {
    hide OperandForm;
    hide CcCodes;
    hide PcCodes;
    hide SfCode;
    hide DfCode;
    hide MoveCodes;
  }

  lemma LogicalShiftIndex(k: int, d: Rtx, s: Rtx)
    requires 96 <= k < 99 && Head(ShiftPattern(k), d, s)
    ensures k in SetCodes(d, s)
  {
    hide OperandForm;
    hide CcCodes;
    hide PcCodes;
    hide SfCode;
    hide DfCode;
    hide MoveCodes;
  }

  lemma RotateLeftIndex(k: int, d: Rtx, s: Rtx)
    requires 99 <= k < 102 && Head(RotatePattern(k), d, s)
    ensures k in SetCodes(d, s)
  {
    hide OperandForm;
    hide CcCodes;
    hide PcCodes;
    hide SfCode;
    hide DfCode;
    hide MoveCodes;
  }

  lemma RotateIndex(k: int, d: Rtx, s: Rtx)
    requires 102 <= k < 105 && Head(RotatePattern(k), d, s)
    ensures k in SetCodes(d, s)
  {
    hide OperandForm;
    hide CcCodes;
    hide PcCodes;
    hide SfCode;
    hide DfCode;
    hide MoveCodes;
  }

  lemma FlagRow(k: int) returns (c: Code2)
    requires 105 <= k < 115
    ensures FlagPattern(k) == StoreFlag(c) && StoreFlagCode(c) == k
  {
    c := FlagPattern(k).b.c2;
  }

  lemma FlagIndex(k: int, d: Rtx, s: Rtx)
    requires 105 <= k < 115 && Head(FlagPattern(k), d, s)
    ensures k in SetCodes(d, s)
  {
    hide FlagPattern;
    hide SoleCode;
    var c := FlagRow(k);
  }

  lemma JumpIndex(k: int, d: Rtx, s: Rtx)
    requires 137 <= k && Head(JumpPattern(k), d, s)
    ensures k in SetCodes(d, s)
  { hide OperandForm; }

  lemma BranchRow(k: int) returns (c: Code2)
    requires 115 <= k < 127 && BranchPattern(k) != Never
    ensures BranchPattern(k) == Branch(c) && k in BranchCodes(c)
  {
    c := BranchPattern(k).b.a.c2;
  }

  lemma BranchInvertedRow(k: int) returns (c: Code2)
    requires 127 <= k < 137 && BranchInvertedPattern(k) != Never
    ensures BranchInvertedPattern(k) == BranchInverted(c) && k in BranchCodes(c)
  {
    c := BranchInvertedPattern(k).b.a.c2;
  }

  lemma BranchIndex(k: int, m: Mode, d: Rtx, s: Rtx, env: Env)
    requires Sane(env) && 115 <= k < 137 && Shape(Pattern(k), X2(SET, m, d, s), env)
    ensures d == PC_RTX && k in PcCodes(s)
  {
    var c;
    if k < 127 { c := BranchRow(k); } else { c := BranchInvertedRow(k); }
    BranchShape(c, X2(SET, m, d, s), env);
  }

  lemma SetIndex(k: int, m: Mode, d: Rtx, s: Rtx, env: Env)
    requires Sane(env) && Matches(k, X2(SET, m, d, s), env)
    requires !VoidConstant(d)
    ensures k in SetCodes(d, s)
  {
    ShapeHead(Pattern(k), m, d, s, env);
    if k < 13 { TestIndex(k, d, s); }
    else if k < 25 { MoveIndex(k, d, s); }
    else if k < 29 { StepIndex(k, d, s); }
    else if k < 35 { IntegerConvertIndex(k, d, s); }
    else if k < 42 { WideConvertIndex(k, d, s); }
    else if k < 49 { AddIndex(k, d, s); }
    else if k < 56 { SubIndex(k, d, s); }
    else if k < 60 { MultiplyIndex(k, d, s); }
    else if k < 68 { DivideIndex(k, d, s); }
    else if k < 71 { AndIndex(k, d, s); }
    else if k < 74 { OrIndex(k, d, s); }
    else if k < 77 { XorIndex(k, d, s); }
    else if k < 87 { NegateIndex(k, d, s); }
    else if k < 90 { DoublingShiftIndex(k, d, s); }
    else if k < 93 { ArithmeticShiftIndex(k, d, s); }
    else if k < 96 { LeftShiftIndex(k, d, s); }
    else if k < 99 { LogicalShiftIndex(k, d, s); }
    else if k < 102 { RotateLeftIndex(k, d, s); }
    else if k < 105 { RotateIndex(k, d, s); }
    else if k < 115 { FlagIndex(k, d, s); }
    else if k < 137 { BranchIndex(k, m, d, s, env); }
    else { JumpIndex(k, d, s); }
  }

  // The templates recog_2 tries by hand.
  lemma QiTruncateText(x: Rtx, env: Env)
    requires Is2(x, SET)
    ensures Pattern(29) == Unary(QI, TRUNCATE, QI, SI) && Pattern(30) == Unary(QI, TRUNCATE, QI, HI)
    ensures DupsAgree(29, x) && DupsAgree(30, x) && Condition(29, env) && Condition(30, env)
    ensures x.right.X1? ==> Extract(29, x) == Extract(30, x) == [x.left, x.right.arg]
  {}

  lemma QiStepText(inc: int, full: int, c: Code2, x: Rtx, env: Env)
    requires Is2(x, SET) && ((inc == 45 && full == 46 && c == PLUS) || (inc == 52 && full == 53 && c == MINUS))
    ensures Pattern(inc) == BinaryConst(QI, c, 1) && Pattern(full) == Binary(QI, c, QI, QI, QI)
    ensures DupsAgree(inc, x) && DupsAgree(full, x) && Condition(inc, env) && Condition(full, env)
    ensures x.right.X2? ==> Extract(inc, x) == [x.left, x.right.left]
    ensures x.right.X2? ==> Extract(full, x) == [x.left, x.right.left, x.right.right]
  {}

  // A code found through its source has a general operand as destination.
  lemma SourceDestination(k: int, m: Mode, x: Rtx, env: Env)
    requires Is2(x, SET) && k in SourceCodes(m, x.right) && Matches(k, x, env)
    ensures env.accepts(General, x.left, m)
  {
    var s := x.right;
    NoNegativeCode(x, env);
    if k == SoleCode(m, s) {
      SoleCodeRow(m, s, x, env);
      if s.X1? { UnaryShape(m, s.code1, s.mode, ArgMode(m, s.code1), x, env); }
      else { BinaryShape(m, s.code2, s.mode, m, m, x, env); }
    } else if s.X2? && k == StoreFlagCode(s.code2) {
      StoreFlagRow(s.code2, x, env);
    } else if s.X1? {
      UnaryShape(m, s.code1, m, HI, x, env);
      UnaryShape(m, s.code1, m, QI, x, env);
      UnaryShape(m, s.code1, m, SI, x, env);
    } else {
      BinaryShape(m, s.code2, m, m, m, x, env);
      BinaryConstShape(m, s.code2, 1, x, env);
      BinaryConstShape(m, s.code2, -1, x, env);
    }
  }

  lemma NoSource(x: Rtx, env: Env)
    requires Is2(x, SET) && !env.accepts(General, x.left, x.left.mode)
    ensures forall k :: k in SourceCodes(x.left.mode, x.right) ==> !Matches(k, x, env)
  {
    forall k | k in SourceCodes(x.left.mode, x.right) && Matches(k, x, env)
      ensures false
    {
      SourceDestination(k, x.left.mode, x, env);
    }
  }

  // Where the codes found through the source stand among the others.
  lemma SourceRange(x: Rtx, env: Env)
    requires Is2(x, SET)
    ensures forall k :: k in SourceCodes(x.left.mode, x.right) && Matches(k, x, env) ==> 25 <= k < 28 || 29 <= k
    ensures forall k :: k in SourceCodes(x.left.mode, x.right) && 25 <= k < 28 ==> x.left.mode == SI
  {
    hide Matches;
    NoNegativeCode(x, env);
  }

  lemma SiStepRows(x: Rtx, env: Env)
    requires Is2(x, SET)
    ensures Matches(25, x, env) <==> Shape(BinaryConst(SI, PLUS, 1), x, env)
    ensures Matches(26, x, env) <==> Shape(BinaryConst(SI, PLUS, -1), x, env)
    ensures Matches(27, x, env) <==> Shape(BinaryConst(SI, MINUS, 1), x, env)
    ensures forall k | 25 <= k < 28 :: Extract(k, x) == [x.left, Xexp(x.right, 0)]
  {
    hide Shape;
    hide BinaryConst;
    SiStepPatterns();
  }

  lemma SiStepPatterns()
    ensures Pattern(25) == BinaryConst(SI, PLUS, 1) && Pattern(26) == BinaryConst(SI, PLUS, -1)
    ensures Pattern(27) == BinaryConst(SI, MINUS, 1)
  {}

  // Code k has a unary template and nothing but its shape to test.
  predicate UnaryRow(k: int, d: Mode, c: Code1, m: Mode, a: Mode, x: Rtx, env: Env)
    requires Is2(x, SET)
  {
    && Pattern(k) == Unary(d, c, m, a) && DupsAgree(k, x) && Condition(k, env)
    && Extract(k, x) == [x.left, Xexp(x.right, 0)]
  }

  lemma ExtendRows(x: Rtx, env: Env)
    requires Is2(x, SET)
    ensures UnaryRow(32, SI, ZERO_EXTEND, SI, HI, x, env) && UnaryRow(34, SI, ZERO_EXTEND, SI, QI, x, env)
    ensures UnaryRow(35, SI, SIGN_EXTEND, SI, HI, x, env) && UnaryRow(37, SI, SIGN_EXTEND, SI, QI, x, env)
  {}

  lemma PlainTestRows(x: Rtx, env: Env)
    requires Is2(x, SET) && x.left == CC0_RTX
    ensures Matches(0, x, env) <==> env.accepts(General, x.right, SI)
    ensures Matches(1, x, env) <==> env.accepts(General, x.right, HI)
    ensures Matches(2, x, env) <==> env.accepts(General, x.right, QI)
    ensures forall k | 0 <= k < 3 :: Extract(k, x) == [x.right]
  {
    TestShape(SI, x, env);
    TestShape(HI, x, env);
    TestShape(QI, x, env);
  }

  lemma AndTestRows(x: Rtx, env: Env)
    requires Is2(x, SET) && x.left == CC0_RTX
    ensures Is2(x.right, AND) && x.right.mode == SI ==> TestRow(10, SI, x, env)
    ensures Is2(x.right, AND) && x.right.mode == HI ==> TestRow(11, HI, x, env)
    ensures Is2(x.right, AND) && x.right.mode == QI ==> TestRow(12, QI, x, env)
  {
    TestBinaryShape(AND, SI, SI, x, env);
    TestBinaryShape(AND, HI, HI, x, env);
    TestBinaryShape(AND, QI, QI, x, env);
  }

  lemma TestRows(x: Rtx, env: Env)
    requires Is2(x, SET) && x.left == CC0_RTX
    ensures Matches(0, x, env) <==> env.accepts(General, x.right, SI)
    ensures Matches(1, x, env) <==> env.accepts(General, x.right, HI)
    ensures Matches(2, x, env) <==> env.accepts(General, x.right, QI)
    ensures forall k | 0 <= k < 3 :: Extract(k, x) == [x.right]
    ensures Is2(x.right, AND) && x.right.mode == SI ==> TestRow(10, SI, x, env)
    ensures Is2(x.right, AND) && x.right.mode == HI ==> TestRow(11, HI, x, env)
    ensures Is2(x.right, AND) && x.right.mode == QI ==> TestRow(12, QI, x, env)
  {
    hide Matches;
    hide Extract;
    PlainTestRows(x, env);
    AndTestRows(x, env);
  }

  predicate TestRow(k: int, m: Mode, x: Rtx, env: Env)
    requires Is2(x, SET) && x.right.X2?
  {
    && (Matches(k, x, env) <==> env.accepts(General, x.right.left, m) && env.accepts(General, x.right.right, m))
    && Extract(k, x) == [x.right.left, x.right.right]
  }

  lemma CompareRows(x: Rtx, env: Env)
    requires Is2(x, SET) && x.left == CC0_RTX && Is2(x.right, COMPARE)
    ensures TestRow(5, SI, x, env) && TestRow(6, HI, x, env) && TestRow(7, QI, x, env)
  {
    TestBinaryShape(COMPARE, VOID, SI, x, env);
    TestBinaryShape(COMPARE, VOID, HI, x, env);
    TestBinaryShape(COMPARE, VOID, QI, x, env);
  }

  // The codes recog_1 returns for a jump on condition c, straight and inverted.
  function JumpCode(c: Code2): int {
    match c
    case EQ => 115 case NE => 116 case GT => 117 case GTU => 118 case LT => 120
    case LTU => 121 case GE => 122 case GEU => 123 case LE => 125 case LEU => 126
    case _ => -1
  }

  function InvertedJumpCode(c: Code2): int {
    match c
    case EQ => 127 case NE => 128 case GT => 129 case GTU => 130 case LT => 131
    case LTU => 132 case GE => 133 case GEU => 134 case LE => 135 case LEU => 136
    case _ => -1
  }

  lemma JumpRow(c: Code2, x: Rtx, env: Env)
    requires Sane(env) && Is2(x, SET) && x.left == PC_RTX && Is3(x.right, IF_THEN_ELSE) && JumpCode(c) != -1
    ensures var k, s := JumpCode(c), x.right;
      && 0 <= k < 127
      && (Matches(k, x, env) <==> IsFlag(c, s.fst) && Is1(s.snd, LABEL_REF) && s.thd == PC_RTX)
      && Extract(k, x) == [Xexp(s.snd, 0)]
  {
    BranchShape(c, x, env);
  }

  lemma InvertedJumpRow(c: Code2, x: Rtx, env: Env)
    requires Sane(env) && Is2(x, SET) && x.left == PC_RTX && Is3(x.right, IF_THEN_ELSE) && JumpCode(c) != -1
    ensures var k, s := InvertedJumpCode(c), x.right;
      && 127 <= k && BranchCodes(c) == {JumpCode(c), k}
      && (Matches(k, x, env) <==> IsFlag(c, s.fst) && s.snd == PC_RTX && Is1(s.thd, LABEL_REF))
      && Extract(k, x) == [Xexp(s.thd, 0)]
  {
    BranchShape(c, x, env);
  }

  lemma CallRow(x: Rtx, env: Env)
    requires Sane(env) && Is2(x, SET)
    ensures Matches(140, x, env) <==>
        Is2(x.right, CALL) && env.accepts(Indirect, x.right.left, QI) && env.accepts(General, x.right.right, SI)
    ensures Extract(140, x) == [x.left, Xexp(x.right, 0), Xexp(x.right, 1)]
  {}

  lemma SetIndexAll(x: Rtx, env: Env)
    requires Sane(env) && Is2(x, SET) && !VoidConstant(x.left)
    ensures forall k :: Matches(k, x, env) ==> k in SetCodes(x.left, x.right)
  {
    forall k | Matches(k, x, env) ensures k in SetCodes(x.left, x.right) {
      SetIndex(k, x.mode, x.left, x.right, env);
    }
  }

  // The codes tried before a call stand below it.
  lemma FlagRange(s: Rtx)
    ensures forall k :: k in CcCodes(s) ==> k < 140
    ensures forall k :: k in PcCodes(s) ==> k < 140
  {}

  // A call is not an operand, an address or an arithmetic source.
  // The source of p is no call.
  predicate NoCall(p: Pat) {
    match p
    case P2(SET, _, _, b) =>
      b.P1? || b.P3? || (b.P2? && b.c2 != CALL) || (b.Op? && b.m != VOID && (b.pred == General || b.pred == Address))
    case _ => !p.Op? && !p.Dup? && !p.Lit?
  }

  lemma NoCallBelow68(k: int)
    requires k < 68
    ensures NoCall(Pattern(k))
  {}

  lemma NoCallAbove68(k: int)
    requires 68 <= k && k != 140
    ensures NoCall(Pattern(k))
  {}

  lemma NoCallShape(p: Pat, x: Rtx, env: Env)
    requires Sane(env) && Is2(x, SET) && Is2(x.right, CALL) && NoCall(p)
    ensures !Shape(p, x, env)
  {}

  lemma CallSource(k: int, x: Rtx, env: Env)
    requires Sane(env) && Is2(x, SET) && Is2(x.right, CALL) && Shape(Pattern(k), x, env)
    ensures k == 140
  {
    if k != 140 {
      if k < 68 { NoCallBelow68(k); } else { NoCallAbove68(k); }
      NoCallShape(Pattern(k), x, env);
    }
  }

  lemma OperandCodesRange(x: Rtx)
    requires Is2(x, SET)
    ensures forall k :: k in OperandCodes(x) ==> k < 140
    ensures VoidConstant(x.left) ==> forall k :: k in OperandCodes(x) ==> k < 0
    ensures OperandCodes(x) == OperandCodes(X2(SET, VOID, x.left, x.right))
  {}

  lemma CallIsNoSource(x: Rtx, env: Env)
    requires Sane(env) && Is2(x, SET) && Is2(x.right, CALL)
    ensures forall k :: k in OperandCodes(x) ==> !Matches(k, x, env)
  {
    hide OperandCodes;
    hide Pattern;
    hide Shape;
    OperandCodesRange(x);
    forall k | k in OperandCodes(x) ensures !Matches(k, x, env) {
      if Matches(k, x, env) { CallSource(k, x, env); }
    }
  }

  // The codes of a PARALLEL of a SET and something else.
  const PARALLEL_CODES: set<int> := {3, 4, 8, 9, 58, 59, 66, 67, 138}

  lemma ParallelIndex(k: int, x: Rtx, env: Env)
    requires Sane(env) && x.Parallel? && Shape(Pattern(k), x, env)
    ensures k in PARALLEL_CODES
    ensures |x.elems| == 2 && Is2(x.elems[0], SET)
  {
    var p := Pattern(k);
    if 13 <= k < 56 { NoParallelBelow56(k); }
    if 68 <= k < 137 { NoParallelAbove68(k); }
    ShapePar(p.a, p.b, x, env);
  }

  lemma NoParallelBelow56(k: int)
    requires 13 <= k < 56
    ensures (Pattern(k).P2? && Pattern(k).c2 == SET) || Pattern(k).Never?
  {}

  lemma NoParallelAbove68(k: int)
    requires 68 <= k < 137
    ensures (Pattern(k).P2? && Pattern(k).c2 == SET) || Pattern(k).Never?
  {}

  // The shape every PARALLEL the recogniser looks into has (L10).
  predicate SetPair(x: Rtx) { x.Parallel? && |x.elems| == 2 && Is2(x.elems[0], SET) }

  // The pair x with the mode of the first source replaced by SImode when that
  // source is a multiplication or division: the mode insn-recog.c does not test.
  function Tighten(x: Rtx): Rtx {
    if !SetPair(x) then x
    else match x.elems[0].right
      case X2(c, _, a, b) =>
        if c in {UMULT, DIV, UDIV} then
          Parallel(x.mode, [X2(SET, x.elems[0].mode, x.elems[0].left, X2(c, SI, a, b)), x.elems[1]])
        else x
      case _ => x
  }

  predicate ClobbersReg(x: Rtx, m: Mode, n: int) { Is1(x, CLOBBER) && x.arg == Reg(m, n) }

  lemma FloatTestRows(x: Rtx, env: Env)
    requires SetPair(x) && x.elems[0].left == CC0_RTX
    ensures var s, c := x.elems[0].right, ClobbersReg(x.elems[1], SI, 0) && env.t80387;
      && (Matches(3, x, env) <==> env.accepts(General, s, SF) && c)
      && (Matches(4, x, env) <==> env.accepts(General, s, DF) && c)
      && Extract(3, x) == Extract(4, x) == [s]
  {
    TestShape(SF, x.elems[0], env);
    TestShape(DF, x.elems[0], env);
    WithClobberShape(Test(SF), Lit(Reg(SI, 0)), x, env);
    WithClobberShape(Test(DF), Lit(Reg(SI, 0)), x, env);
  }

  lemma FloatCompareRow(k: int, m: Mode, x: Rtx, env: Env)
    requires SetPair(x) && x.elems[0].left == CC0_RTX && x.elems[0].right.X2?
    requires (k == 8 && m == DF) || (k == 9 && m == SF)
    ensures var s, c := x.elems[0].right, ClobbersReg(x.elems[1], SI, 0) && env.t80387;
      && (Matches(k, x, env) <==>
            Is2(s, COMPARE) && env.accepts(General, s.left, m) && env.accepts(General, s.right, m) && c)
      && Extract(k, x) == [s.left, s.right]
  {
    TestBinaryShape(COMPARE, VOID, m, x.elems[0], env);
    WithClobberShape(TestBinary(COMPARE, VOID, m), Lit(Reg(SI, 0)), x, env);
  }

  lemma MultiplyRow(k: int, m: Mode, x: Rtx, env: Env)
    requires SetPair(x) && x.elems[0].right.X2?
    requires (k == 58 && m == HI) || (k == 59 && m == SI)
    ensures var d, s := x.elems[0].left, x.elems[0].right;
      && (Matches(k, x, env) <==> (
            && env.accepts(General, d, m) && Is2(s, UMULT) && s.mode == SI
            && env.accepts(General, s.left, m) && env.accepts(General, s.right, m)
            && ClobbersReg(x.elems[1], m, 1)))
      && Extract(k, x) == [d, s.left, s.right]
  {
    BinaryShape(m, UMULT, SI, m, m, x.elems[0], env);
    WithClobberShape(Binary(m, UMULT, SI, m, m), Lit(Reg(m, 1)), x, env);
  }

  lemma DivModRow(k: int, c: Code2, q: Code2, x: Rtx, env: Env)
    requires SetPair(x) && x.elems[0].right.X2?
    requires (k == 66 && c == DIV && q == MOD) || (k == 67 && c == UDIV && q == UMOD)
    ensures var d, s, e := x.elems[0].left, x.elems[0].right, x.elems[1];
      && (Matches(k, x, env) <==> (
            && env.accepts(General, d, SI) && Is2(s, c) && s.mode == SI
            && env.accepts(General, s.left, SI) && env.accepts(General, s.right, SI)
            && Is2(e, SET) && env.accepts(General, e.left, SI) && Is2(e.right, q) && e.right.mode == SI
            && RtxEqual(e.right.left, s.left) && RtxEqual(e.right.right, s.right)))
      && Extract(k, x) == [d, s.left, s.right, Xexp(e, 0)]
  {
    hide RtxEqual;
    BinaryShape(SI, c, SI, SI, SI, x.elems[0], env);
    DivModShape(c, q, x, env);
  }

  lemma TableJumpText(x: Rtx, env: Env)
    ensures Pattern(138) == PPar(P2(SET, VOID, Lit(PC_RTX), Op(0, General, SI)), P1(USE, VOID, Label(1)))
    ensures DupsAgree(138, x) && Condition(138, env)
    ensures SetPair(x) ==> Extract(138, x) == [Xexp(x.elems[0], 1), Xexp(Xexp(x.elems[1], 0), 0)]
  {}

  lemma TableJumpRow(x: Rtx, env: Env)
    requires Sane(env) && SetPair(x)
    ensures var e := x.elems[1];
      && (Matches(138, x, env) <==> (
            && x.elems[0].left == PC_RTX && env.accepts(General, x.elems[0].right, SI)
            && Is1(e, USE) && Is1(e.arg, LABEL_REF)))
      && Extract(138, x) == [x.elems[0].right, Xexp(Xexp(e, 0), 0)]
  {
    hide Pattern;
    hide DupsAgree;
    hide Condition;
    hide Extract;
    hide Label;
    TableJumpText(x, env);
    ShapePar(P2(SET, VOID, Lit(PC_RTX), Op(0, General, SI)), P1(USE, VOID, Label(1)), x, env);
    Shape1(USE, VOID, Label(1), x.elems[1], env);
    if Is1(x.elems[1], USE) { LabelShape(1, x.elems[1].arg, env); }
  }

  lemma CallOnlyRow(x: Rtx, env: Env)
    requires Is2(x, CALL)
    ensures forall k :: Matches(k, x, env) ==> k == 139
    ensures Matches(139, x, env) <==> env.accepts(Indirect, x.left, QI) && env.accepts(General, x.right, SI)
    ensures Extract(139, x) == [x.left, x.right]
  {
    forall k | Matches(k, x, env) ensures k == 139 { RootCode(k, x, env); }
  }

  // Every template but those of codes 139 and 141 is a SET or a pair.
  lemma RootCode(k: int, x: Rtx, env: Env)
    requires Shape(Pattern(k), x, env)
    ensures k == 139 || k == 141 || Is2(x, SET) || x.Parallel?
    ensures k == 139 ==> Is2(x, CALL)
    ensures k == 141 ==> IsInt(x, 0)
  {
    if 13 <= k < 56 { NoParallelBelow56(k); }
    if 68 <= k < 137 { NoParallelAbove68(k); }
  }

  lemma TightenSame(x: Rtx)
    requires SetPair(x)
    ensures Is2(x.elems[0].right, UMULT) && x.elems[0].right.mode == SI ==> Tighten(x) == x
  {
    if Is2(x.elems[0].right, UMULT) && x.elems[0].right.mode == SI { assert Tighten(x).elems == x.elems; }
  }

  lemma TightenParts(x: Rtx, c: Code2)
    requires SetPair(x) && Is2(x.elems[0].right, c) && c in {UMULT, DIV, UDIV}
    ensures var y := Tighten(x); var s := x.elems[0].right;
      SetPair(y) && y.elems[0].left == x.elems[0].left && y.elems[0].right == X2(c, SI, s.left, s.right)
      && y.elems[1] == x.elems[1]
  {}

  lemma TightenKeeps(x: Rtx)
    requires SetPair(x)
    ensures var y := Tighten(x);
      && SetPair(y) && y.elems[0].left == x.elems[0].left
      && (forall c: Code2 :: Is2(y.elems[0].right, c) <==> Is2(x.elems[0].right, c))
      && (x.elems[0].right.X2? ==> y.elems[0].right.left == x.elems[0].right.left)
  {}

  lemma MultiplyDivideSource(x: Rtx, env: Env)
    requires SetPair(x)
    ensures var d, s := x.elems[0].left, x.elems[0].right; var y := Tighten(x);
      && (Matches(58, x, env) ==> env.accepts(General, d, HI) && Is2(s, UMULT) && s.mode == SI && y == x)
      && (Matches(59, y, env) ==> env.accepts(General, d, SI) && Is2(s, UMULT))
      && (Matches(66, y, env) ==> env.accepts(General, d, SI) && Is2(s, DIV))
      && (Matches(67, y, env) ==> env.accepts(General, d, SI) && Is2(s, UDIV))
  {
    hide Pattern;
    hide DupsAgree;
    hide Condition;
    hide Tighten;
    TightenKeeps(x);
    ArithPattern(58);
    ArithPattern(59);
    ArithPattern(66);
    ArithPattern(67);
    var y := Tighten(x);
    BinaryShape(HI, UMULT, SI, HI, HI, x.elems[0], env);
    BinaryShape(SI, UMULT, SI, SI, SI, y.elems[0], env);
    BinaryShape(SI, DIV, SI, SI, SI, y.elems[0], env);
    BinaryShape(SI, UDIV, SI, SI, SI, y.elems[0], env);
    ShapePar(Pattern(58).a, Pattern(58).b, x, env);
    ShapePar(Pattern(59).a, Pattern(59).b, y, env);
    ShapePar(Pattern(66).a, Pattern(66).b, y, env);
    ShapePar(Pattern(67).a, Pattern(67).b, y, env);
    TightenSame(x);
  }

  // A multiplication or division in a pair whose mode is not SImode.
  predicate LooseMode(x: Rtx) {
    SetPair(x) && var s := x.elems[0].right; s.X2? && s.code2 in {UMULT, DIV, UDIV} && s.mode != SI
  }

  // A SET whose destination is a constant without a mode.
  predicate ConstantDestination(x: Rtx) { Is2(x, SET) && VoidConstant(x.left) }

  lemma TightElements(x: Rtx)
    requires SetPair(x)
    ensures !LooseMode(x) ==> Tighten(x) == x
  {
    if !LooseMode(x) { assert Tighten(x).elems == x.elems; }
  }

  lemma PairCodes(x: Rtx, env: Env)
    requires Sane(env) && SetPair(x)
    ensures forall k :: Matches(k, x, env) ==> k in PARALLEL_CODES
    ensures forall k :: k in {3, 4, 8, 9} && Matches(k, x, env) ==> x.elems[0].left == CC0_RTX && !LooseMode(x)
    ensures forall k :: k in {8, 9} && Matches(k, x, env) ==> Is2(x.elems[0].right, COMPARE)
    ensures Matches(138, x, env) ==> x.elems[0].left == PC_RTX && !LooseMode(x)
    ensures forall k :: k in {58, 59, 66, 67} && Matches(k, x, env) ==>
        x.elems[0].left != CC0_RTX && x.elems[0].left != PC_RTX && !LooseMode(x)
    ensures !LooseMode(x) ==> Tighten(x) == x
  {
    hide Pattern;
    hide DupsAgree;
    hide Condition;
    hide Tighten;
    forall k | Matches(k, x, env) ensures k in PARALLEL_CODES { ParallelIndex(k, x, env); }
    forall k | k in {3, 4, 8, 9} && Matches(k, x, env)
      ensures x.elems[0].left == CC0_RTX && !LooseMode(x)
      ensures k == 8 || k == 9 ==> Is2(x.elems[0].right, COMPARE)
    {
      FlagPair(k, x, env);
    }
    TableJumpRow(x, env);
    MultiplyDivideSource(x, env);
    TightElements(x);
    forall k | k in {58, 59, 66, 67} && Matches(k, x, env)
      ensures x.elems[0].left != CC0_RTX && x.elems[0].left != PC_RTX && !LooseMode(x)
    {
      ArithPair(k, x, env);
    }
  }

  lemma FlagPairText(k: int)
    requires k in {3, 4, 8, 9}
    ensures Pattern(k) == WithClobber(
        if k == 3 then Test(SF) else if k == 4 then Test(DF) else TestBinary(COMPARE, VOID, if k == 8 then DF else SF),
        Lit(Reg(SI, 0)))
  {}

  lemma FlagPair(k: int, x: Rtx, env: Env)
    requires Sane(env) && SetPair(x) && k in {3, 4, 8, 9} && Matches(k, x, env)
    ensures x.elems[0].left == CC0_RTX && !LooseMode(x)
    ensures k == 8 || k == 9 ==> Is2(x.elems[0].right, COMPARE)
  {
    hide Pattern;
    hide Condition;
    hide DupsAgree;
    hide Shape;
    FlagPairText(k);
    ShapePar(Pattern(k).a, Pattern(k).b, x, env);
    TestShape(SF, x.elems[0], env);
    TestShape(DF, x.elems[0], env);
    TestBinaryShape(COMPARE, VOID, DF, x.elems[0], env);
    TestBinaryShape(COMPARE, VOID, SF, x.elems[0], env);
  }

  lemma ArithPattern(k: int)
    requires k in {58, 59, 66, 67}
    ensures Pattern(k).PPar?
    ensures Pattern(k).a == if k == 58 then Binary(HI, UMULT, SI, HI, HI)
      else Binary(SI, if k == 59 then UMULT else if k == 66 then DIV else UDIV, SI, SI, SI)
  {}

  lemma ArithPair(k: int, x: Rtx, env: Env)
    requires Sane(env) && SetPair(x) && k in {58, 59, 66, 67} && Matches(k, x, env)
    ensures x.elems[0].left != CC0_RTX && x.elems[0].left != PC_RTX && !LooseMode(x)
  {
    hide Condition;
    hide Pattern;
    hide DupsAgree;
    hide Shape;
    ArithPattern(k);
    var p := Pattern(k);
    ShapePar(p.a, p.b, x, env);
    var e := x.elems[0];
    if k == 58 { BinaryShape(HI, UMULT, SI, HI, HI, e, env); }
    else if k == 59 { BinaryShape(SI, UMULT, SI, SI, SI, e, env); }
    else if k == 66 { BinaryShape(SI, DIV, SI, SI, SI, e, env); }
    else { BinaryShape(SI, UDIV, SI, SI, SI, e, env); }
  }

  lemma OtherRoots(x: Rtx, env: Env)
    requires Sane(env)
    ensures Is2(x, SET) || SetPair(x) || Is2(x, CALL) || IsInt(x, 0) || forall k :: !Matches(k, x, env)
    ensures IsInt(x, 0) ==> forall k :: Matches(k, x, env) <==> k == 141
    ensures Extract(141, x) == []
  {
    forall k | Matches(k, x, env)
      ensures Is2(x, SET) || SetPair(x) || Is2(x, CALL) || IsInt(x, 0)
      ensures IsInt(x, 0) ==> k == 141
    {
      RootCode(k, x, env);
      if x.Parallel? { ParallelIndex(k, x, env); }
    }
  }

  // The codes the first attempts on a pair look for.
  function PairFlagCodes(x: Rtx): set<int>
    requires SetPair(x)
  {
    var e := x.elems[0];
    if e.left == CC0_RTX then {3, 4} + (if Is2(e.right, COMPARE) then {8, 9} else {})
    else if e.left == PC_RTX then {138}
    else {}
  }

  lemma PairCandidates(x: Rtx, env: Env)
    requires Sane(env) && SetPair(x)
    ensures forall k :: Matches(k, x, env) ==> k in PairFlagCodes(x) + {58, 59, 66, 67}
  {
    hide Matches;
    hide LooseMode;
    PairCodes(x, env);
  }

  // What the first attempts on a pair say about the whole machine description.
  lemma PairFlags(r: int, x: Rtx, env: Env)
    requires Sane(env) && SetPair(x) && FirstIn(r, PairFlagCodes(x), x, env)
    ensures r != -1 ==> !LooseMode(x) && IsFirst(r, x, env)
    ensures r == -1 ==> forall k :: Matches(k, x, env) ==> k in {58, 59, 66, 67}
  {
    hide Matches;
    hide PairFlagCodes;
    hide LooseMode;
    PairCandidates(x, env);
    if r != -1 { PairFlagRange(r, x, env); }
  }

  lemma PairFlagRange(r: int, x: Rtx, env: Env)
    requires Sane(env) && SetPair(x) && r in PairFlagCodes(x) && Matches(r, x, env)
    ensures !LooseMode(x) && forall k :: k in {58, 59, 66, 67} ==> !Matches(k, x, env)
  {
    hide Matches;
    hide LooseMode;
    PairCodes(x, env);
  }

  // Code 58 if x matches it; else the first of 59, 66 and 67 that x matches with
  // its mode read as SImode.
  predicate ArithAnswer(r: int, x: Rtx, env: Env) {
    && (r == -1 || (r == 58 && Matches(58, x, env)) || (r in {59, 66, 67} && Matches(r, Tighten(x), env)))
    && (Matches(58, x, env) ==> r == 58)
    && (Matches(59, Tighten(x), env) ==> 0 <= r <= 59)
    && (Matches(66, Tighten(x), env) ==> 0 <= r <= 66)
    && (Matches(67, Tighten(x), env) ==> 0 <= r <= 67)
  }

  lemma PairArith(r: int, x: Rtx, env: Env)
    requires Sane(env) && SetPair(x) && ArithAnswer(r, x, env)
    requires forall k :: Matches(k, x, env) ==> k in {58, 59, 66, 67}
    ensures !LooseMode(x) ==> IsFirst(r, x, env)
    ensures LooseMode(x) ==> FirstIn(r, {59, 66, 67}, Tighten(x), env)
  {
    hide Matches;
    PairCodes(x, env);
  }
}
