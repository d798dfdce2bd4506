// Which insn codes an rtx can possibly match, read off the m68k machine
// description, and what a match of each means.

module M68kIndex {
  import opened Rtl
  import opened Patterns
  import opened M68kDescription

  // --------------------------------------------------------------------------
  // The switches of recog_3 to recog_6 on the code of a source: what each label
  // tries, in order.  a and b are the modes its general_operand calls ask for.
  datatype Need = Always | Fpa | M68881 | M68020

  datatype Row = Row(k: int, a: Mode, b: Mode, need: Need)

  predicate Allowed(n: Need, env: Env) {
    match n
    case Always => true
    case Fpa => env.tFpa
    case M68881 => env.t68881
    case M68020 => env.t68020
  }

  function One(k: int, m: Mode): seq<Row> { [Row(k, m, m, Always)] }

  function Two(k: int, a: Mode, b: Mode): seq<Row> { [Row(k, a, a, Always), Row(k + 1, b, b, Always)] }

  // A floating-point operation, for the FPA and for the 68881.
  function FloatPair(k: int, m: Mode): seq<Row> { [Row(k, m, m, Fpa), Row(k + 1, m, m, M68881)] }

  function Rows(m: Mode, s: Rtx): (r: seq<Row>) {
    if s.mode != m then []
    else match s
      case X1(c, _, _) =>
        (match m
         case QI => QiUnary(c)
         case HI => HiUnary(c)
         case SI => SiUnary(c)
         case SF => SfUnary(c)
         case DF => DfUnary(c)
         case _ => [])
      case X2(c, _, _, _) =>
        (match m
         case QI => QiBinary(c)
         case HI => HiBinary(c)
         case SI => SiBinary(c)
         case SF => SfBinary(c)
         case DF => DfBinary(c)
         case _ => [])
      case _ => []
  }

  // Logical operations and shifts, whose codes stand together for the three modes.
  function Logic(c: Code2, m: Mode): seq<Row> {
    var n := if m == SI then 0 else if m == HI then 1 else 2;
    match c
    case AND => One(132 + n, m)
    case IOR => One(137 + n, m)
    case XOR => One(140 + n, m)
    case ASHIFT => One(167 + n, m)
    case ASHIFTRT => One(170 + n, m)
    case LSHIFT => One(173 + n, m)
    case LSHIFTRT => One(176 + n, m)
    case ROTATE => One(179 + n, m)
    case ROTATERT => One(182 + n, m)
    case _ => []
  }

  // recog_3, L178
  function QiUnary(c: Code1): seq<Row> {
    match c
    case TRUNCATE => Two(40, SI, HI)
    case FIX => [Row(70, SF, SF, M68881), Row(73, DF, DF, M68881)]
    case NEG => One(145, QI)
    case NOT => One(160, QI)
    case _ => []
  }

  function QiBinary(c: Code2): seq<Row> {
    match c
    case PLUS => One(82, QI)
    case MINUS => One(94, QI)
    case _ => Logic(c, QI)
  }

  // recog_4, L186
  function HiUnary(c: Code1): seq<Row> {
    match c
    case TRUNCATE => One(42, SI)
    case ZERO_EXTEND => One(47, QI)
    case SIGN_EXTEND => One(50, QI)
    case FIX => [Row(71, SF, SF, M68881), Row(74, DF, DF, M68881)]
    case NEG => One(144, HI)
    case NOT => One(159, HI)
    case _ => []
  }

  function HiBinary(c: Code2): seq<Row> {
    match c
    case PLUS => One(80, HI)
    case MINUS => One(92, HI)
    case MULT => One(102, HI)
    case UMULT => One(105, HI)
    case DIV => [Row(114, HI, HI, Always), Row(115, SI, HI, Always)]
    case UDIV => [Row(117, HI, HI, Always), Row(118, SI, HI, Always)]
    case MOD => [Row(126, HI, HI, Always), Row(127, SI, HI, Always)]
    case UMOD => [Row(128, HI, HI, Always), Row(129, SI, HI, Always)]
    case _ => Logic(c, HI)
  }

  // recog_5, L190; what else its labels try is in SiSpecial.
  function SiUnary(c: Code1): seq<Row> {
    match c
    case ZERO_EXTEND => [Row(46, HI, HI, Always), Row(48, QI, QI, Always)]
    case SIGN_EXTEND => [Row(49, HI, HI, Always), Row(51, QI, QI, M68020)]
    case FIX => [Row(72, SF, SF, M68881), Row(75, DF, DF, M68881)]
    case NEG => One(143, SI)
    case NOT => One(158, SI)
    case _ => []
  }

  function SiBinary(c: Code2): seq<Row> {
    match c
    case PLUS => One(78, SI)
    case MINUS => One(90, SI)
    case MULT => [Row(103, HI, HI, Always), Row(104, SI, SI, M68020)]
    case UMULT => [Row(106, HI, HI, Always), Row(107, SI, SI, M68020)]
    case DIV => [Row(116, SI, SI, M68020)]
    case UDIV => [Row(119, SI, SI, M68020)]
    case _ => Logic(c, SI)
  }

  // recog_6, L222
  function SfUnary(c: Code1): seq<Row> {
    match c
    case FLOAT_TRUNCATE => FloatPair(56, DF)
    case FLOAT => FloatPair(59, SI) + [Row(64, HI, HI, M68881), Row(66, QI, QI, M68881)]
    case FIX => [Row(69, SF, SF, M68881)]
    case NEG => FloatPair(147, SF)
    case ABS => FloatPair(153, SF)
    case _ => []
  }

  function SfBinary(c: Code2): seq<Row> {
    match c
    case PLUS => FloatPair(88, SF)
    case MINUS => FloatPair(100, SF)
    case MULT => FloatPair(112, SF)
    case DIV => FloatPair(124, SF)
    case _ => []
  }

  // recog_6, L214
  function DfUnary(c: Code1): seq<Row> {
    match c
    case FLOAT_EXTEND => FloatPair(53, SF)
    case FLOAT => FloatPair(62, SI) + [Row(65, HI, HI, M68881), Row(67, QI, QI, M68881)]
    case FIX => [Row(68, DF, DF, M68881)]
    case NEG => FloatPair(150, DF)
    case ABS => FloatPair(156, DF)
    case _ => []
  }

  function DfBinary(c: Code2): seq<Row> {
    match c
    case PLUS => FloatPair(85, DF)
    case MINUS => FloatPair(97, DF)
    case MULT => FloatPair(109, DF)
    case DIV => FloatPair(121, DF)
    case _ => []
  }

  // The codes of a list of at most four rows.
  function Codes(r: seq<Row>): set<int> {
    if |r| == 0 then {}
    else if |r| == 1 then {r[0].k}
    else if |r| == 2 then {r[0].k, r[1].k}
    else if |r| == 4 then {r[0].k, r[1].k, r[2].k, r[3].k}
    else {}
  }

  // What a row says about the machine description.
  predicate RowText(r: Row, m: Mode, x: Rtx, env: Env)
    requires Is2(x, SET)
  {
    && 40 <= r.k && DupsAgree(r.k, x) && Condition(r.k, x, env) == Allowed(r.need, env)
    && match x.right
       case X1(c, n, a) => Pattern(r.k) == Unary(m, c, n, r.a) && Extract(r.k, x) == [x.left, a]
       case X2(c, n, a, b) => Pattern(r.k) == Binary(m, c, n, r.a, r.b) && Extract(r.k, x) == [x.left, a, b]
       case _ => false
  }

  predicate RowsText(r: seq<Row>, m: Mode, x: Rtx, env: Env)
    requires Is2(x, SET)
  {
    && (|r| > 0 ==> RowText(r[0], m, x, env))
    && (|r| > 1 ==> RowText(r[1], m, x, env) && r[0].k < r[1].k)
    && (|r| > 2 ==> |r| == 4 && RowText(r[2], m, x, env) && RowText(r[3], m, x, env) && r[1].k < r[2].k < r[3].k)
  }

  lemma AndText(m: Mode, x: Rtx, env: Env)
    requires Is2(x, SET) && x.right.X2? && x.right.mode == m && (m == QI || m == HI || m == SI)
    requires x.right.code2 in {AND}
    ensures RowsText(Logic(x.right.code2, m), m, x, env)
  {}

  lemma OrText(m: Mode, x: Rtx, env: Env)
    requires Is2(x, SET) && x.right.X2? && x.right.mode == m && (m == QI || m == HI || m == SI)
    requires x.right.code2 in {IOR, XOR}
    ensures RowsText(Logic(x.right.code2, m), m, x, env)
  {}

  lemma ShiftArithmeticText(m: Mode, x: Rtx, env: Env)
    requires Is2(x, SET) && x.right.X2? && x.right.mode == m && (m == QI || m == HI || m == SI)
    requires x.right.code2 in {ASHIFT, ASHIFTRT, LSHIFT}
    ensures RowsText(Logic(x.right.code2, m), m, x, env)
  {}

  lemma OtherLogicText(m: Mode, x: Rtx, env: Env)
    requires Is2(x, SET) && x.right.X2? && x.right.mode == m && (m == QI || m == HI || m == SI)
    requires x.right.code2 !in {AND, IOR, XOR, ASHIFT, ASHIFTRT, LSHIFT}
    ensures RowsText(Logic(x.right.code2, m), m, x, env)
  {}

  lemma LogicText(m: Mode, x: Rtx, env: Env)
    requires Is2(x, SET) && x.right.X2? && x.right.mode == m && (m == QI || m == HI || m == SI)
    ensures RowsText(Logic(x.right.code2, m), m, x, env)
  {
    hide Logic;
    hide RowsText;
    var c := x.right.code2;
    if c == AND { AndText(m, x, env); }
    else if c in {IOR, XOR} { OrText(m, x, env); }
    else if c in {ASHIFT, ASHIFTRT, LSHIFT} { ShiftArithmeticText(m, x, env); }
    else { OtherLogicText(m, x, env); }
  }

  lemma QiUnaryText(x: Rtx, env: Env)
    requires Is2(x, SET) && x.right.X1? && x.right.mode == QI
    ensures RowsText(QiUnary(x.right.code1), QI, x, env)
  {}

  lemma QiArithText(x: Rtx, env: Env)
    requires Is2(x, SET) && x.right.X2? && x.right.mode == QI && x.right.code2 in {PLUS, MINUS}
    ensures RowsText(QiBinary(x.right.code2), QI, x, env)
  {}

  lemma QiBinaryText(x: Rtx, env: Env)
    requires Is2(x, SET) && x.right.X2? && x.right.mode == QI
    ensures RowsText(QiBinary(x.right.code2), QI, x, env)
  {
    hide Logic;
    hide RowsText;
    if x.right.code2 in {PLUS, MINUS} { QiArithText(x, env); } else { LogicText(QI, x, env); }
  }

  lemma HiUnaryText(x: Rtx, env: Env)
    requires Is2(x, SET) && x.right.X1? && x.right.mode == HI
    ensures RowsText(HiUnary(x.right.code1), HI, x, env)
  {}

  lemma HiArithText(x: Rtx, env: Env)
    requires Is2(x, SET) && x.right.X2? && x.right.mode == HI && x.right.code2 in {PLUS, MINUS, MULT, UMULT}
    ensures RowsText(HiBinary(x.right.code2), HI, x, env)
  {}

  lemma HiQuotientText(x: Rtx, env: Env)
    requires Is2(x, SET) && x.right.X2? && x.right.mode == HI && x.right.code2 in {DIV, UDIV}
    ensures RowsText(HiBinary(x.right.code2), HI, x, env)
  {}

  lemma HiRemainderText(x: Rtx, env: Env)
    requires Is2(x, SET) && x.right.X2? && x.right.mode == HI && x.right.code2 in {MOD, UMOD}
    ensures RowsText(HiBinary(x.right.code2), HI, x, env)
  {}

  lemma HiBinaryText(x: Rtx, env: Env)
    requires Is2(x, SET) && x.right.X2? && x.right.mode == HI
    ensures RowsText(HiBinary(x.right.code2), HI, x, env)
  {
    hide Logic;
    hide RowsText;
    var c := x.right.code2;
    if c in {PLUS, MINUS, MULT, UMULT} {
      HiArithText(x, env);
    } else if c in {DIV, UDIV} {
      HiQuotientText(x, env);
    } else if c in {MOD, UMOD} {
      HiRemainderText(x, env);
    } else {
      LogicText(HI, x, env);
    }
  }

  lemma SiUnaryText(x: Rtx, env: Env)
    requires Is2(x, SET) && x.right.X1? && x.right.mode == SI
    ensures RowsText(SiUnary(x.right.code1), SI, x, env)
  {}

  lemma SiSumText(x: Rtx, env: Env)
    requires Is2(x, SET) && x.right.X2? && x.right.mode == SI && x.right.code2 in {PLUS, MINUS}
    ensures RowsText(SiBinary(x.right.code2), SI, x, env)
  {}

  lemma SiProductText(x: Rtx, env: Env)
    requires Is2(x, SET) && x.right.X2? && x.right.mode == SI && x.right.code2 in {MULT, UMULT, DIV, UDIV}
    ensures RowsText(SiBinary(x.right.code2), SI, x, env)
  {}

  lemma SiBinaryText(x: Rtx, env: Env)
    requires Is2(x, SET) && x.right.X2? && x.right.mode == SI
    ensures RowsText(SiBinary(x.right.code2), SI, x, env)
  {
    hide Logic;
    hide RowsText;
    var c := x.right.code2;
    if c in {PLUS, MINUS} {
      SiSumText(x, env);
    } else if c in {MULT, UMULT, DIV, UDIV} {
      SiProductText(x, env);
    } else {
      LogicText(SI, x, env);
    }
  }

  lemma SfFloatText(x: Rtx, env: Env)
    requires Is2(x, SET) && x.right.X1? && x.right.mode == SF && x.right.code1 in {FLOAT, FLOAT_TRUNCATE}
    ensures RowsText(SfUnary(x.right.code1), SF, x, env)
  {}

  lemma SfPlainText(x: Rtx, env: Env)
    requires Is2(x, SET) && x.right.X1? && x.right.mode == SF && x.right.code1 !in {FLOAT, FLOAT_TRUNCATE}
    ensures RowsText(SfUnary(x.right.code1), SF, x, env)
  {}

  lemma SfUnaryText(x: Rtx, env: Env)
    requires Is2(x, SET) && x.right.X1? && x.right.mode == SF
    ensures RowsText(SfUnary(x.right.code1), SF, x, env)
  {
    hide RowsText;
    var c := x.right.code1;
    if c in {FLOAT, FLOAT_TRUNCATE} { SfFloatText(x, env); }
    else { SfPlainText(x, env); }
  }

  lemma SfSumText(x: Rtx, env: Env)
    requires Is2(x, SET) && x.right.X2? && x.right.mode == SF && x.right.code2 in {PLUS, MINUS}
    ensures RowsText(SfBinary(x.right.code2), SF, x, env)
  {}

  lemma SfProductText(x: Rtx, env: Env)
    requires Is2(x, SET) && x.right.X2? && x.right.mode == SF && x.right.code2 !in {PLUS, MINUS}
    ensures RowsText(SfBinary(x.right.code2), SF, x, env)
  {}

  lemma SfBinaryText(x: Rtx, env: Env)
    requires Is2(x, SET) && x.right.X2? && x.right.mode == SF
    ensures RowsText(SfBinary(x.right.code2), SF, x, env)
  {
    hide RowsText;
    var c := x.right.code2;
    if c in {PLUS, MINUS} { SfSumText(x, env); }
    else { SfProductText(x, env); }
  }

  lemma DfFloatText(x: Rtx, env: Env)
    requires Is2(x, SET) && x.right.X1? && x.right.mode == DF && x.right.code1 in {FLOAT, FLOAT_EXTEND}
    ensures RowsText(DfUnary(x.right.code1), DF, x, env)
  {}

  lemma DfPlainText(x: Rtx, env: Env)
    requires Is2(x, SET) && x.right.X1? && x.right.mode == DF && x.right.code1 !in {FLOAT, FLOAT_EXTEND}
    ensures RowsText(DfUnary(x.right.code1), DF, x, env)
  {}

  lemma DfUnaryText(x: Rtx, env: Env)
    requires Is2(x, SET) && x.right.X1? && x.right.mode == DF
    ensures RowsText(DfUnary(x.right.code1), DF, x, env)
  {
    hide RowsText;
    var c := x.right.code1;
    if c in {FLOAT, FLOAT_EXTEND} { DfFloatText(x, env); }
    else { DfPlainText(x, env); }
  }

  lemma DfSumText(x: Rtx, env: Env)
    requires Is2(x, SET) && x.right.X2? && x.right.mode == DF && x.right.code2 in {PLUS, MINUS}
    ensures RowsText(DfBinary(x.right.code2), DF, x, env)
  {}

  lemma DfProductText(x: Rtx, env: Env)
    requires Is2(x, SET) && x.right.X2? && x.right.mode == DF && x.right.code2 !in {PLUS, MINUS}
    ensures RowsText(DfBinary(x.right.code2), DF, x, env)
  {}

  lemma DfBinaryText(x: Rtx, env: Env)
    requires Is2(x, SET) && x.right.X2? && x.right.mode == DF
    ensures RowsText(DfBinary(x.right.code2), DF, x, env)
  {
    hide RowsText;
    var c := x.right.code2;
    if c in {PLUS, MINUS} { DfSumText(x, env); }
    else { DfProductText(x, env); }
  }

  lemma RowsTextAll(m: Mode, x: Rtx, env: Env)
    requires Is2(x, SET)
    ensures RowsText(Rows(m, x.right), m, x, env)
  {
    hide RowText;
    var s := x.right;
    if s.mode == m {
      if s.X1? {
        match m {
          case QI => QiUnaryText(x, env);
          case HI => HiUnaryText(x, env);
          case SI => SiUnaryText(x, env);
          case SF => SfUnaryText(x, env);
          case DF => DfUnaryText(x, env);
          case _ =>
        }
      } else if s.X2? {
        match m {
          case QI => QiBinaryText(x, env);
          case HI => HiBinaryText(x, env);
          case SI => SiBinaryText(x, env);
          case SF => SfBinaryText(x, env);
          case DF => DfBinaryText(x, env);
          case _ =>
        }
      }
    }
  }

  // The source x.right passes the tests of row r.
  predicate Fits(r: Row, s: Rtx, env: Env) {
    && Allowed(r.need, env)
    && match s
       case X1(_, _, a) => env.accepts(General, a, r.a)
       case X2(_, _, a, b) => env.accepts(General, a, r.a) && env.accepts(General, b, r.b)
       case _ => false
  }

  function Arguments(x: Rtx): seq<Rtx>
    requires Is2(x, SET)
  {
    match x.right
    case X1(_, _, a) => [x.left, a]
    case X2(_, _, a, b) => [x.left, a, b]
    case _ => []
  }

  predicate RowMeaning(r: Row, m: Mode, x: Rtx, env: Env)
    requires Is2(x, SET)
  {
    && 40 <= r.k && (Matches(r.k, x, env) <==> env.accepts(General, x.left, m) && Fits(r, x.right, env))
    && Extract(r.k, x) == Arguments(x)
  }

  lemma RowMeans(r: Row, m: Mode, x: Rtx, env: Env)
    requires Is2(x, SET) && RowText(r, m, x, env)
    ensures RowMeaning(r, m, x, env)
  {
    hide Pattern;
    hide Condition;
    hide Extract;
    var s := x.right;
    match s {
      case X1(c, n, _) => UnaryShape(m, c, n, r.a, x, env);
      case X2(c, n, _, _) => BinaryShape(m, c, n, r.a, r.b, x, env);
      case _ =>
    }
  }

  // A list of rows: what they mean, that they are listed, and that their codes increase.
  ghost predicate RowsMeaning(r: seq<Row>, m: Mode, x: Rtx, env: Env)
    requires Is2(x, SET)
  {
    && (forall i | 0 <= i < |r| :: RowMeaning(r[i], m, x, env) && r[i].k in Codes(r))
    && (forall k :: k in Codes(r) ==> exists i :: 0 <= i < |r| && r[i].k == k)
    && (forall i | 0 < i < |r| :: r[i - 1].k < r[i].k)
  }

  lemma {:induction false} RowsOrdered(r: seq<Row>, i: nat)
    requires i < |r| && forall j | 0 < j < |r| :: r[j - 1].k < r[j].k
    ensures forall j | i <= j < |r| :: r[i].k <= r[j].k
    decreases |r| - i
  {
    if i + 1 < |r| {
      RowsOrdered(r, i + 1);
      assert r[(i + 1) - 1].k < r[i + 1].k;
    }
  }

  lemma RowsTextMeans(r: seq<Row>, m: Mode, x: Rtx, env: Env)
    requires Is2(x, SET) && RowsText(r, m, x, env)
    ensures RowsMeaning(r, m, x, env)
  {
    hide RowText;
    hide RowMeaning;
    forall i | 0 <= i < |r| ensures RowMeaning(r[i], m, x, env) { RowMeans(r[i], m, x, env); }
  }

  lemma RowsMean(m: Mode, x: Rtx, env: Env)
    requires Is2(x, SET)
    ensures RowsMeaning(Rows(m, x.right), m, x, env)
  {
    hide Rows;
    RowsTextAll(m, x, env);
    RowsTextMeans(Rows(m, x.right), m, x, env);
  }

  // --------------------------------------------------------------------------
  // Every code a (set d s) can match.

  function StoreFlagCode(c: Code2): int {
    match c
    case EQ => 205 case NE => 206 case GT => 207 case GTU => 208 case LT => 209
    case LTU => 210 case GE => 211 case GEU => 212 case LE => 213 case LEU => 214
    case _ => -1
  }

  // The codes recog_2 returns for a jump on condition c; the inverted jump is 10 higher.
  function JumpCode(c: Code2): int {
    match c
    case EQ => 215 case NE => 216 case GT => 217 case GTU => 218 case LT => 219
    case LTU => 220 case GE => 221 case GEU => 222 case LE => 223 case LEU => 224
    case _ => -1
  }

  function CcSpecial(s: Rtx): set<int> {
    match s
    case X2(COMPARE, _, _, _) => {11, 12, 13, 16, 19, 163, 164, 165, 166}
    case X2(AND, SI, _, _) => {28}
    case X3(ZERO_EXTRACT, m, _, _, _) => if m == SI then BIT_TESTS + {199, 202} else BIT_TESTS
    case Subreg(SI, _, 0) => {27}
    case Subreg(QI, _, 0) => {200, 203}
    case Subreg(HI, _, 0) => {201, 204}
    case _ => {}
  }

  const BIT_TESTS: set<int> := {20, 21, 22, 23, 24, 25, 26}

  function PcCodes(s: Rtx): set<int> {
    match s
    case X1(LABEL_REF, _, _) => {239}
    case X3(IF_THEN_ELSE, _, X2(c, _, _, _), _, _) =>
      if JumpCode(c) == -1 then {} else {JumpCode(c), JumpCode(c) + 10}
    case _ => {}
  }

  function StrictSpecial(s: Rtx): set<int> {
    match s
    case X2(PLUS, HI, _, _) => {81}
    case X2(PLUS, QI, _, _) => {83}
    case X2(MINUS, HI, _, _) => {93}
    case X2(MINUS, QI, _, _) => {95}
    case _ => {}
  }

  const FIELD_CODES: set<int> := {185, 190, 191, 192, 193, 196, 197, 198}

  function Moves(m: Mode): set<int> {
    match m
    case QI => {34}
    case HI => {32}
    case SI => {29, 30, 31, 39, 246}
    case DI => {1, 38}
    case SF => {36}
    case DF => {0, 37}
    case _ => {}
  }

  // The codes outside Rows that a computed source can have.
  function Special(m: Mode, s: Rtx): set<int> {
    match m
    case QI => FlagCodes(s)
    case SI => SiSpecial(s) + ExtractCodes(s)
    case SF => if s.mode == SF && s.X2? then SfSpecial(s.code2) else {}
    case DF => if s.mode == DF && s.X2? then DfSpecial(s.code2) else {}
    case _ => {}
  }

  function FlagCodes(s: Rtx): set<int> {
    if s.X2? && StoreFlagCode(s.code2) != -1 then {StoreFlagCode(s.code2)} else {}
  }

  function SiSpecial(s: Rtx): set<int> {
    match s
    case X1(FIX, SI, _) => {76, 77}
    case X2(PLUS, SI, _, _) => {79}
    case X2(MINUS, SI, _, _) => {91}
    case X2(AND, SI, _, _) => {135, 136}
    case X2(ASHIFTRT, SI, _, _) => {161}
    case X2(LSHIFTRT, SI, _, _) => {162}
    case _ => {}
  }

  function ExtractCodes(s: Rtx): set<int> {
    match s
    case X3(ZERO_EXTRACT, SI, _, _, _) => {186, 189, 195}
    case X3(SIGN_EXTRACT, SI, _, _, _) => {187, 188, 194}
    case _ => {}
  }

  function SfSpecial(c: Code2): set<int> {
    match c
    case PLUS => {250, 251}
    case MINUS => {253, 255}
    case MULT => {258, 259, 262, 263}
    case _ => {}
  }

  function DfSpecial(c: Code2): set<int> {
    match c
    case PLUS => {248, 249}
    case MINUS => {252, 254}
    case MULT => {256, 257, 260, 261}
    case _ => {}
  }

  predicate CallCode(k: int, s: Rtx) { k == 244 && Is2(s, CALL) }

  // The codes of a destination that is an operand of mode m.
  function OperandCodes(m: Mode, s: Rtx): set<int> { Moves(m) + Codes(Rows(m, s)) + Special(m, s) }

  predicate Candidate(k: int, d: Rtx, s: Rtx) {
    || CallCode(k, s)
    || (if d == CC0_RTX then k in {2, 3, 4, 7, 10} || k in CcSpecial(s)
        else if d == PC_RTX then k in PcCodes(s)
        else if Is1(d, STRICT_LOW_PART) then k in {33, 35} || k in StrictSpecial(s)
        else if Is3(d, ZERO_EXTRACT) then k in FIELD_CODES
        else OperandForm(d) && (k in Moves(d.mode) || k in Codes(Rows(d.mode, s)) || k in Special(d.mode, s)))
  }

  lemma OperandKind(d: Rtx)
    ensures OperandForm(d) ==> d != CC0_RTX && d != PC_RTX && !Is1(d, STRICT_LOW_PART) && !Is3(d, ZERO_EXTRACT)
  {}

  lemma TestIndex(k: int, d: Rtx, s: Rtx)
    requires 0 <= k < 11 && Head(TestPattern(k), d, s)
    ensures Candidate(k, d, s)
  {}

  lemma CompareIndex(k: int, d: Rtx, s: Rtx)
    requires 11 <= k < 20 && Head(ComparePattern(k), d, s)
    ensures Candidate(k, d, s)
  {}

  lemma BitTestIndex(k: int, d: Rtx, s: Rtx)
    requires 20 <= k < 29 && Head(BitTestPattern(k), d, s)
    ensures Candidate(k, d, s)
  {}

  lemma MoveIndex(k: int, d: Rtx, s: Rtx)
    requires 29 <= k < 40 && Head(MovePattern(k), d, s)
    ensures Candidate(k, d, s)
  {}

  lemma ExtendIndex(k: int, d: Rtx, s: Rtx)
    requires 40 <= k < 53 && Head(ExtendPattern(k), d, s)
    ensures Candidate(k, d, s)
  {
    hide OperandForm;
    hide CcSpecial;
    hide PcCodes;
    hide Moves;
    OperandKind(d);
  }

  lemma FloatIndex(k: int, d: Rtx, s: Rtx)
    requires 53 <= k < 64 && Head(FloatPattern(k), d, s)
    ensures Candidate(k, d, s)
  {
    hide OperandForm;
    hide CcSpecial;
    hide PcCodes;
    hide Moves;
    OperandKind(d);
  }

  lemma FixIndex(k: int, d: Rtx, s: Rtx)
    requires 64 <= k < 78 && Head(FixPattern(k), d, s)
    ensures Candidate(k, d, s)
  {
    hide OperandForm;
    hide CcSpecial;
    hide PcCodes;
    hide Moves;
    OperandKind(d);
  }

  lemma AddIndex(k: int, d: Rtx, s: Rtx)
    requires 78 <= k < 90 && Head(AddPattern(k), d, s)
    ensures Candidate(k, d, s)
  {
    hide OperandForm;
    hide CcSpecial;
    hide PcCodes;
    hide Moves;
    OperandKind(d);
  }

  lemma SubIndex(k: int, d: Rtx, s: Rtx)
    requires 90 <= k < 102 && Head(SubPattern(k), d, s)
    ensures Candidate(k, d, s)
  {
    hide OperandForm;
    hide CcSpecial;
    hide PcCodes;
    hide Moves;
    OperandKind(d);
  }

  lemma MultIndex(k: int, d: Rtx, s: Rtx)
    requires 102 <= k < 114 && Head(MultPattern(k), d, s)
    ensures Candidate(k, d, s)
  {
    hide OperandForm;
    hide CcSpecial;
    hide PcCodes;
    hide Moves;
    OperandKind(d);
  }

  lemma DivIndex(k: int, d: Rtx, s: Rtx)
    requires 114 <= k < 126 && Head(DivPattern(k), d, s)
    ensures Candidate(k, d, s)
  {
    hide OperandForm;
    hide CcSpecial;
    hide PcCodes;
    hide Moves;
    OperandKind(d);
  }

  lemma ModIndex(k: int, d: Rtx, s: Rtx)
    requires 126 <= k < 132 && Head(ModPattern(k), d, s)
    ensures Candidate(k, d, s)
  {}

  lemma AndIndex(k: int, d: Rtx, s: Rtx)
    requires 132 <= k < 137 && Head(LogicPattern(k), d, s)
    ensures Candidate(k, d, s)
  {
    hide OperandForm;
    hide CcSpecial;
    hide PcCodes;
    hide Moves;
    OperandKind(d);
  }

  lemma OrIndex(k: int, d: Rtx, s: Rtx)
    requires 137 <= k < 143 && Head(LogicPattern(k), d, s)
    ensures Candidate(k, d, s)
  {
    hide OperandForm;
    hide CcSpecial;
    hide PcCodes;
    hide Moves;
    OperandKind(d);
  }

  lemma NegateIndex(k: int, d: Rtx, s: Rtx)
    requires 143 <= k < 158 && Head(NegatePattern(k), d, s)
    ensures Candidate(k, d, s)
  {
    hide OperandForm;
    hide CcSpecial;
    hide PcCodes;
    hide Moves;
    OperandKind(d);
  }

  lemma NotIndex(k: int, d: Rtx, s: Rtx)
    requires 158 <= k < 167 && Head(NotPattern(k), d, s)
    ensures Candidate(k, d, s)
  {
    hide OperandForm;
    hide PcCodes;
    hide Moves;
    OperandKind(d);
  }

  lemma ShiftLeftIndex(k: int, d: Rtx, s: Rtx)
    requires 167 <= k < 170 && Head(ShiftLeftPattern(k), d, s)
    ensures Candidate(k, d, s)
  {
    hide OperandForm;
    hide CcSpecial;
    hide PcCodes;
    hide Moves;
    OperandKind(d);
  }

  lemma ShiftArithmeticIndex(k: int, d: Rtx, s: Rtx)
    requires 170 <= k < 176 && Head(ShiftLeftPattern(k), d, s)
    ensures Candidate(k, d, s)
  {
    hide OperandForm;
    hide CcSpecial;
    hide PcCodes;
    hide Moves;
    OperandKind(d);
  }

  lemma ShiftRightIndex(k: int, d: Rtx, s: Rtx)
    requires 176 <= k < 179 && Head(ShiftRightPattern(k), d, s)
    ensures Candidate(k, d, s)
  {
    hide OperandForm;
    hide CcSpecial;
    hide PcCodes;
    hide Moves;
    OperandKind(d);
  }

  lemma RotateIndex(k: int, d: Rtx, s: Rtx)
    requires 179 <= k < 185 && Head(ShiftRightPattern(k), d, s)
    ensures Candidate(k, d, s)
  {
    hide OperandForm;
    hide CcSpecial;
    hide PcCodes;
    hide Moves;
    OperandKind(d);
  }

  lemma FieldIndex(k: int, d: Rtx, s: Rtx)
    requires 185 <= k < 189 && Head(FieldPattern(k), d, s)
    ensures Candidate(k, d, s)
  {}

  lemma PutFieldIndex(k: int, d: Rtx, s: Rtx)
    requires 189 <= k < 193 && Head(FieldPattern(k), d, s)
    ensures Candidate(k, d, s)
  {}

  lemma FieldSiIndex(k: int, d: Rtx, s: Rtx)
    requires 193 <= k < 205 && Head(FieldSiPattern(k), d, s)
    ensures Candidate(k, d, s)
  {}

  lemma FlagRow(k: int) returns (c: Code2)
    requires 205 <= k < 215
    ensures FlagPattern(k) == StoreFlag(c) && StoreFlagCode(c) == k
  {
    c := FlagPattern(k).b.c2;
  }

  lemma FlagIndex(k: int, d: Rtx, s: Rtx)
    requires 205 <= k < 215 && Head(FlagPattern(k), d, s)
    ensures Candidate(k, d, s)
  {
    hide StoreFlagCode;
    hide FlagPattern;
    hide Rows;
    var c := FlagRow(k);
  }

  lemma JumpIndex(k: int, d: Rtx, s: Rtx)
    requires 235 <= k < 248 && Head(JumpPattern(k), d, s)
    ensures Candidate(k, d, s)
  {}

  lemma SingleFuseIndex(k: int, d: Rtx, s: Rtx)
    requires 248 <= k < 256 && Head(MultiplyAddPattern(k), d, s)
    ensures Candidate(k, d, s)
  {
    hide OperandForm;
    hide CcSpecial;
    hide PcCodes;
    hide Moves;
    OperandKind(d);
  }

  lemma DoubleFuseIndex(k: int, d: Rtx, s: Rtx)
    requires 256 <= k < 264 && Head(MultiplyAddPattern(k), d, s)
    ensures Candidate(k, d, s)
  {
    hide OperandForm;
    hide CcSpecial;
    hide PcCodes;
    hide Moves;
    OperandKind(d);
  }

  lemma BranchRow(k: int) returns (c: Code2)
    requires 215 <= k < 225
    ensures BranchPattern(k) == Branch(c) && JumpCode(c) == k
  {
    c := BranchPattern(k).b.a.c2;
  }

  lemma BranchInvertedRow(k: int) returns (c: Code2)
    requires 225 <= k < 235
    ensures BranchInvertedPattern(k) == BranchInverted(c) && JumpCode(c) == k - 10
  {
    c := BranchInvertedPattern(k).b.a.c2;
  }

  lemma BranchIndex(k: int, m: Mode, d: Rtx, s: Rtx, env: Env)
    requires Sane(env) && 215 <= k < 235 && Shape(Pattern(k), X2(SET, m, d, s), env)
    ensures d == PC_RTX && k in PcCodes(s)
  {
    var c;
    if k < 225 { c := BranchRow(k); } else { c := BranchInvertedRow(k); }
    BranchShape(c, X2(SET, m, d, s), env);
  }

  lemma SetIndex(k: int, m: Mode, d: Rtx, s: Rtx, env: Env)
    requires Sane(env) && Matches(k, X2(SET, m, d, s), env)
    requires !VoidConstant(d)
    ensures Candidate(k, d, s)
  {
    ShapeHead(Pattern(k), m, d, s, env);
    if k < 11 { TestIndex(k, d, s); }
    else if k < 20 { CompareIndex(k, d, s); }
    else if k < 29 { BitTestIndex(k, d, s); }
    else if k < 40 { MoveIndex(k, d, s); }
    else if k < 53 { ExtendIndex(k, d, s); }
    else if k < 64 { FloatIndex(k, d, s); }
    else if k < 78 { FixIndex(k, d, s); }
    else if k < 90 { AddIndex(k, d, s); }
    else if k < 102 { SubIndex(k, d, s); }
    else if k < 114 { MultIndex(k, d, s); }
    else if k < 126 { DivIndex(k, d, s); }
    else if k < 132 { ModIndex(k, d, s); }
    else if k < 137 { AndIndex(k, d, s); }
    else if k < 143 { OrIndex(k, d, s); }
    else if k < 158 { NegateIndex(k, d, s); }
    else if k < 167 { NotIndex(k, d, s); }
    else if k < 170 { ShiftLeftIndex(k, d, s); }
    else if k < 176 { ShiftArithmeticIndex(k, d, s); }
    else if k < 179 { ShiftRightIndex(k, d, s); }
    else if k < 185 { RotateIndex(k, d, s); }
    else if k < 189 { FieldIndex(k, d, s); }
    else if k < 193 { PutFieldIndex(k, d, s); }
    else if k < 205 { FieldSiIndex(k, d, s); }
    else if k < 215 { FlagIndex(k, d, s); }
    else if k < 235 { BranchIndex(k, m, d, s, env); }
    else if k < 248 { JumpIndex(k, d, s); }
    else if k < 256 { SingleFuseIndex(k, d, s); }
    else if k < 264 { DoubleFuseIndex(k, d, s); }
  }

  lemma SetIndexAll(x: Rtx, env: Env)
    requires Sane(env) && Is2(x, SET) && !VoidConstant(x.left)
    ensures forall k :: Matches(k, x, env) ==> Candidate(k, x.left, x.right)
  {
    forall k | Matches(k, x, env) ensures Candidate(k, x.left, x.right) {
      SetIndex(k, x.mode, x.left, x.right, env);
    }
  }
}
