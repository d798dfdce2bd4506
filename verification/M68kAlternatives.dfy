// Which lower codes an insn of each code can also match on the m68k.

module M68kAlternatives {
  import opened Rtl
  import opened Patterns
  import opened M68kDescription
  import opened M68kIndex
  import opened M68kMeaning

  // The codes under which an insn built for code k can come back.  Constants fit
  // operands of every mode, the FPA and the 68881 have templates of their own, and an
  // address can be an operand, a sum or a product.
  function Alternatives(k: int): set<int> {
    if k < 29 then TestAlternatives(k)
    else if k < 78 then MoveAlternatives(k)
    else if k < 132 then ArithAlternatives(k)
    else LateAlternatives(k)
  }

  function TestAlternatives(k: int): set<int> {
    match k
    case 3 => {2, 3}
    case 4 => {2, 3, 4}
    case 7 => {2, 3, 4, 7}
    case 9 => {6, 9}
    case 10 => {2, 3, 4, 7, 10}
    case 12 => {11, 12}
    case 13 => {11, 12, 13}
    case 16 => {11, 12, 13, 16}
    case 18 => {15, 18}
    case 19 => {11, 12, 13, 16, 19}
    case 27 => {2, 27}
    case _ => {k}
  }

  function MoveAlternatives(k: int): set<int> {
    match k
    case 30 => {29, 30}
    case 31 => {29, 30, 31}
    case 33 => {33, 35}
    case 37 => {0, 37}
    case 38 => {1, 38}
    case 39 => {29, 30, 31, 39}
    case 41 => {40, 41}
    case 48 => {46, 48}
    case 51 => {49, 51}
    case 54 => {53, 54}
    case 57 => {56, 57}
    case 60 => {59, 60}
    case 63 => {62, 63}
    case 64 => {59, 60, 64}
    case 65 => {62, 63, 65}
    case 66 => {59, 60, 64, 66}
    case 67 => {62, 63, 65, 67}
    case 73 => {70, 73}
    case 74 => {71, 74}
    case 75 => {72, 75}
    case _ => {k}
  }

  function ArithAlternatives(k: int): set<int> {
    match k
    case 78 => {39, 78}
    case 79 => {39, 79}
    case 86 => {85, 86}
    case 89 => {88, 89}
    case 98 => {97, 98}
    case 101 => {100, 101}
    case 103 => {39, 103}
    case 104 => {39, 103, 104}
    case 107 => {106, 107}
    case 110 => {109, 110}
    case 113 => {112, 113}
    case 115 => {114, 115}
    case 118 => {117, 118}
    case 122 => {121, 122}
    case 125 => {124, 125}
    case 127 => {126, 127}
    case 129 => {128, 129}
    case _ => {k}
  }

  function LateAlternatives(k: int): set<int> {
    match k
    case 136 => {135, 136}
    case 148 => {147, 148}
    case 151 => {150, 151}
    case 154 => {153, 154}
    case 157 => {156, 157}
    case 170 => {161, 170}
    case 176 => {162, 176}
    case 193 => {191, 192, 193}
    case 194 => {187, 194}
    case 195 => {186, 195}
    case 196 => {185, 196}
    case 197 => {185, 197}
    case 198 => {185, 196, 197, 198}
    case 199 => {24, 199}
    case 200 => {4, 200}
    case 201 => {3, 201}
    case 202 => {26, 202}
    case 203 => {4, 203}
    case 204 => {3, 204}
    case 246 => {29, 30, 31, 39, 78, 79, 103, 104, 246}
    case _ => {k}
  }

  lemma Itself(k: int)
    ensures k in Alternatives(k)
  {}

  // --------------------------------------------------------------------------
  // Two templates that fit one rtx agree in codes, modes and operand kinds.

  predicate Both(p: Pat, q: Pat, x: Rtx, env: Env) { Shape(p, x, env) && Shape(q, x, env) }

  predicate ModesMeet(m: Mode, n: Mode) { m == VOID || n == VOID || m == n }

  // Predicates that accept no constant.
  predicate Rigid(f: Predicate) { f in {Register, Push, Memory, Indirect, Nonimmediate} }

  // Operands of different modes are constants.
  predicate OperandsMeet(f: Predicate, m: Mode, g: Predicate, n: Mode) {
    var known := m != VOID && n != VOID && (f == General || Rigid(f)) && (g == General || Rigid(g));
    known && (Rigid(f) || Rigid(g)) ==> m == n
  }

  // An operand, and what is none.
  predicate Plain(a: Pat) { a.Op? && a.pred in {General, Register} && a.m != VOID }

  predicate Computed(a: Pat) { a.P2? || (a.P1? && a.c1 in {SIGN_EXTEND, ZERO_EXTEND, FIX}) }

  lemma BothRoots(p: Pat, q: Pat, x: Rtx, env: Env)
    requires Sane(env) && Both(p, q, x, env)
    ensures p.Op? && q.Op? ==> OperandsMeet(p.pred, p.m, q.pred, q.m)
    ensures !(Plain(p) && Computed(q)) && !(Computed(p) && Plain(q))
    ensures p.Int? && q.Int? ==> p.i == q.i
    ensures !(p.Int? && q.P2?) && !(p.P2? && q.Int?)
    ensures p.P1? && q.Lit? ==> q.x.X1?
  {
    hide Shape;
    RootText(p, x, env);
    RootText(q, x, env);
  }

  lemma RootText(p: Pat, x: Rtx, env: Env)
    requires Sane(env) && Shape(p, x, env)
    ensures p.Op? && (p.m != VOID || p.pred == Immediate) ==> Fact(p.pred, x, p.m)
    ensures p.Lit? ==> x == p.x
    ensures p.Int? ==> IsInt(x, p.i)
    ensures p.P1? ==> Is1(x, p.c1)
    ensures p.P2? ==> Is2(x, p.c2)
  {}

  lemma BothParts(p: Pat, q: Pat, x: Rtx, env: Env)
    requires Both(p, q, x, env)
    ensures p.P1? && q.P1? ==> x.X1? && p.c1 == q.c1 && ModesMeet(p.m, q.m) && Both(p.a, q.a, x.arg, env)
    ensures p.P2? && q.P2? ==> x.X2? && p.c2 == q.c2 && ModesMeet(p.m, q.m)
    ensures p.P2? && q.P2? ==> Both(p.a, q.a, x.left, env) && Both(p.b, q.b, x.right, env)
    ensures p.P3? && q.P3? ==> x.X3? && p.c3 == q.c3 && ModesMeet(p.m, q.m)
    ensures p.P3? && q.P3? ==>
        Both(p.a, q.a, x.fst, env) && Both(p.b, q.b, x.snd, env) && Both(p.c, q.c, x.thd, env)
    ensures p.PSub? && q.PSub? ==> x.Subreg? && ModesMeet(p.m, q.m) && Both(p.a, q.a, x.reg, env)
    ensures p.PPar? && q.PPar? ==> x.Parallel? && |x.elems| == 2 && Both(p.a, q.a, x.elems[0], env)
  {
    hide Shape;
    ShapeStep(p, x, env);
    ShapeStep(q, x, env);
  }

  // A source all of whose parts are operands, and one with a computed part.
  predicate Flat(b: Pat) { (b.P2? && Plain(b.a) && Plain(b.b)) || (b.P1? && Plain(b.a)) }

  predicate Nested(b: Pat) { (b.P2? && (Computed(b.a) || Computed(b.b))) || (b.P1? && Computed(b.a)) }

  lemma FlatOrNested(p: Pat, q: Pat, x: Rtx, env: Env)
    requires Sane(env) && p.P2? && q.P2? && Flat(p.b) && Nested(q.b)
    ensures !Both(p, q, x, env)
  {
    hide Both;
    if Both(p, q, x, env) {
      BothParts(p, q, x, env);
      KindsAgree(p.b, q.b, x.right, env);
      BothParts(p.b, q.b, x.right, env);
      if p.b.P2? {
        BothRoots(p.b.a, q.b.a, x.right.left, env);
        BothRoots(p.b.b, q.b.b, x.right.right, env);
      } else {
        BothRoots(p.b.a, q.b.a, x.right.arg, env);
      }
    }
  }

  lemma KindsAgree(p: Pat, q: Pat, x: Rtx, env: Env)
    requires Both(p, q, x, env)
    ensures !(p.P1? && q.P2?) && !(p.P2? && q.P1?)
  {
    hide Shape;
    ShapeStep(p, x, env);
    ShapeStep(q, x, env);
  }

  // --------------------------------------------------------------------------
  // Destination cc0

  lemma TestsLower(k: int, r: int)
    requires k in {2, 3, 4, 7, 10} && r in {2, 3, 4, 7, 10} && r <= k
    ensures r in Alternatives(k)
  {}

  lemma ComparesLower(k: int, r: int)
    requires k in {11, 12, 13, 16, 19} && r in {11, 12, 13, 16, 19} && r <= k
    ensures r in Alternatives(k)
  {}

  lemma CompareText(k: int)
    requires k in {11, 12, 13, 16, 19}
    ensures Pattern(k).P2? && Flat(Pattern(k).b)
  {}

  // The byte compared with a top byte is operand 0 or 1.
  predicate TopOnRight(k: int) { k == 163 || k == 165 }

  function TopPattern(k: int): Pat {
    var c := if k < 165 then LSHIFTRT else ASHIFTRT;
    if TopOnRight(k) then CompareTop(c) else TopCompare(c)
  }

  lemma TopCompareText(k: int)
    requires k in {163, 164, 165, 166}
    ensures Pattern(k) == TopPattern(k)
  {}

  lemma TopComparesLower(k: int, r: int, x: Rtx, env: Env)
    requires Sane(env) && Both(Pattern(r), Pattern(k), x, env)
    requires k in {163, 164, 165, 166} && r in {11, 12, 13, 16, 19, 163, 164, 165, 166} && r <= k
    ensures r in Alternatives(k)
  {
    hide Pattern;
    hide Both;
    Itself(k);
    TopCompareText(k);
    if r < 20 {
      CompareText(r);
      FlatOrNested(Pattern(r), Pattern(k), x, env);
    } else if r != k {
      TopCompareText(r);
      TopComparesApart(k, r, Pattern(r), Pattern(k), x, env);
    }
  }

  lemma TopComparesApart(k: int, r: int, p: Pat, q: Pat, x: Rtx, env: Env)
    requires Sane(env)
    requires k in {163, 164, 165, 166} && r in {163, 164, 165, 166} && k != r
    requires p == TopPattern(r) && q == TopPattern(k)
    ensures !Both(p, q, x, env)
  {
    hide Both;
    if Both(p, q, x, env) {
      BothParts(p, q, x, env);
      BothParts(p.b, q.b, x.right, env);
      BothRoots(p.b.a, q.b.a, x.right.left, env);
      BothRoots(p.b.b, q.b.b, x.right.right, env);
      if TopOnRight(k) {
        BothParts(p.b.b, q.b.b, x.right.right, env);
      } else {
        BothParts(p.b.a, q.b.a, x.right.left, env);
      }
    }
  }

  lemma BitTestText(k: int)
    requires k in BIT_TESTS
    ensures Pattern(k) == TestBit(BitMode(k), BitPosition(k))
  {}

  function BitMode(k: int): Mode { if k in {20, 22, 24} then QI else if k == 25 then HI else SI }

  function BitPosition(k: int): Pat {
    if k == 20 || k == 21 then P2(MINUS, SI, Int(if k == 20 then 7 else 31), Op(1, General, SI))
    else if k == 22 || k == 23 then
      var last := if k == 22 then 7 else 31;
      P2(MINUS, SI, Int(last), P2(AND, SI, Op(1, General, SI), Int(last)))
    else Op(1, General, SI)
  }

  lemma BitTestsLower(k: int, r: int, x: Rtx, env: Env)
    requires Sane(env) && Both(Pattern(r), Pattern(k), x, env) && k in BIT_TESTS && r in BIT_TESTS
    ensures r == k
  {
    hide Pattern;
    hide Both;
    hide BitPosition;
    BitTestText(k);
    BitTestText(r);
    var p, q := Pattern(r), Pattern(k);
    BothParts(p, q, x, env);
    BothParts(p.b, q.b, x.right, env);
    BothRoots(p.b.a, q.b.a, x.right.fst, env);
    if k != r { PositionsApart(k, r, x.right.thd, env); }
  }

  lemma PositionsApart(k: int, r: int, x: Rtx, env: Env)
    requires Sane(env)
    requires k in BIT_TESTS && r in BIT_TESTS && k != r && BitMode(k) == BitMode(r)
    ensures !Both(BitPosition(r), BitPosition(k), x, env)
  {
    hide Both;
    if Both(BitPosition(r), BitPosition(k), x, env) {
      var p, q := BitPosition(r), BitPosition(k);
      BothRoots(p, q, x, env);
      BothParts(p, q, x, env);
      if p.P2? && q.P2? { BothRoots(p.b, q.b, x.right, env); }
    }
  }

  function FieldPlace(k: int): (Predicate, Mode) { if k == 199 then (Memory, QI) else (Nonimmediate, SI) }

  lemma FieldTestText(k: int)
    requires k in {199, 202}
    ensures Pattern(k) == TestField(FieldPlace(k).0, FieldPlace(k).1)
  {}

  lemma FieldTestsLower(k: int, r: int, x: Rtx, env: Env)
    requires Sane(env) && Both(Pattern(r), Pattern(k), x, env)
    requires k in {199, 202} && r in BIT_TESTS + {199, 202} && r <= k
    ensures r in Alternatives(k)
  {
    hide Pattern;
    hide Both;
    hide BitPosition;
    Itself(k);
    FieldTestText(k);
    if r < 199 { BitTestText(r); } else { FieldTestText(r); }
    var p, q := Pattern(r), Pattern(k);
    BothParts(p, q, x, env);
    BothParts(p.b, q.b, x.right, env);
    BothRoots(p.b.a, q.b.a, x.right.fst, env);
    if r < 199 { OperandPosition(r, x.right.thd, env); }
  }

  lemma OperandPosition(k: int, x: Rtx, env: Env)
    requires Sane(env) && k in BIT_TESTS && Both(BitPosition(k), Op(2, General, SI), x, env)
    ensures k in {24, 25, 26}
  {
    hide Both;
    BothRoots(BitPosition(k), Op(2, General, SI), x, env);
  }

  function SubfieldMode(k: int): Mode { if k == 200 || k == 203 then QI else HI }

  function SubfieldPlace(k: int): (Predicate, Mode) { if k < 202 then (Memory, QI) else (Nonimmediate, SI) }

  lemma SubfieldTestText(k: int)
    requires k in {200, 201, 203, 204}
    ensures Pattern(k) == TestSubfield(SubfieldMode(k), SubfieldPlace(k).0, SubfieldPlace(k).1)
  {}

  lemma SubfieldTestsLower(k: int, r: int, x: Rtx, env: Env)
    requires Sane(env) && Both(Pattern(r), Pattern(k), x, env)
    requires k in {200, 201, 203, 204} && r in {200, 201, 203, 204}
    ensures r == k
  {
    hide Pattern;
    hide Both;
    SubfieldTestText(k);
    SubfieldTestText(r);
    var p, q := Pattern(r), Pattern(k);
    BothParts(p, q, x, env);
    BothParts(p.b, q.b, x.right, env);
    BothParts(p.b.a, q.b.a, x.right.reg, env);
    BothRoots(p.b.a.a, q.b.a.a, x.right.reg.fst, env);
  }

  function TestMode(k: int): Mode {
    match k
    case 2 => SI
    case 3 => HI
    case 4 => QI
    case 7 => SF
    case _ => DF
  }

  // The source of a plain test is an operand of its mode.
  predicate TestedOperand(k: int, s: Rtx) {
    k in {2, 3, 4, 7, 10} ==> OperandForm(s) && (s.Subreg? ==> s.mode == TestMode(k))
  }

  lemma TestText(k: int)
    requires k in {2, 3, 4, 7, 10}
    ensures Pattern(k) == Test(TestMode(k)) && TestMode(k) != VOID
  {}

  lemma TestSource(k: int, x: Rtx, env: Env)
    requires Sane(env) && Is2(x, SET) && Matches(k, x, env)
    ensures TestedOperand(k, x.right)
  {
    hide Pattern;
    hide TestMode;
    if k in {2, 3, 4, 7, 10} {
      TestText(k);
      ShapeStep(Test(TestMode(k)), x, env);
    }
  }

  // Beside a test of a computed value only a subreg is an operand.
  lemma TestBelow(k: int, r: int, s: Rtx)
    requires r in {2, 3, 4, 7, 10} && k in CcSpecial(s) && TestedOperand(r, s)
    ensures r in Alternatives(k)
  {
    if s.Subreg? { SubregTestBelow(k, r, s); }
  }

  lemma SubregTestBelow(k: int, r: int, s: Rtx)
    requires r in {2, 3, 4, 7, 10} && s.Subreg? && k in CcSpecial(s) && s.mode == TestMode(r)
    ensures r in Alternatives(k)
  {}

  lemma CcLower(k: int, r: int, x: Rtx, env: Env)
    requires Sane(env) && x.X2? && Both(Pattern(r), Pattern(k), x, env) && TestedOperand(r, x.right) && 0 <= r <= k
    requires k in {2, 3, 4, 7, 10} || k in CcSpecial(x.right)
    requires r in {2, 3, 4, 7, 10} || r in CcSpecial(x.right)
    ensures r in Alternatives(k)
  {
    hide Pattern;
    hide Both;
    hide Alternatives;
    hide TestedOperand;
    Itself(k);
    if k in {2, 3, 4, 7, 10} {
      if r in {2, 3, 4, 7, 10} { TestsLower(k, r); }
    } else if r in {2, 3, 4, 7, 10} {
      TestBelow(k, r, x.right);
    } else if k in {11, 12, 13, 16, 19} {
      ComparesLower(k, r);
    } else if k in {163, 164, 165, 166} {
      TopComparesLower(k, r, x, env);
    } else if k in BIT_TESTS {
      if r in BIT_TESTS { BitTestsLower(k, r, x, env); }
    } else if k in {199, 202} {
      FieldTestsLower(k, r, x, env);
    } else if k in {200, 201, 203, 204} {
      SubfieldTestsLower(k, r, x, env);
    }
  }

  // --------------------------------------------------------------------------
  // Destinations pc, a low part, a field

  lemma JumpText(k: int) returns (c: Code2)
    requires 225 <= k < 235
    ensures Pattern(k - 10) == Branch(c) && Pattern(k) == BranchInverted(c)
  {
    c := Pattern(k).b.a.c2;
  }

  lemma PcLower(k: int, r: int, x: Rtx, env: Env)
    requires Sane(env) && x.X2? && Both(Pattern(r), Pattern(k), x, env)
    requires k in PcCodes(x.right) && r in PcCodes(x.right) && 0 <= r <= k
    ensures r == k
  {
    hide Pattern;
    hide Both;
    if r != k {
      var c := JumpText(k);
      var p, q := Branch(c), BranchInverted(c);
      BothParts(p, q, x, env);
      BothParts(p.b, q.b, x.right, env);
      BothRoots(p.b.b, q.b.b, x.right.snd, env);
    }
  }

  lemma StrictText(k: int)
    requires k in {33, 35, 81, 83, 93, 95}
    ensures Pattern(k).P2?
    ensures if k < 40 then Plain(Pattern(k).b) else Pattern(k).b.P2?
  {}

  lemma StrictLower(k: int, r: int, x: Rtx, env: Env)
    requires Sane(env) && x.X2? && Both(Pattern(r), Pattern(k), x, env)
    requires k in {33, 35} || k in StrictSpecial(x.right)
    requires r in {33, 35} || r in StrictSpecial(x.right)
    requires 0 <= r <= k && !(r == 33 && k == 35)
    ensures r == k
  {
    hide Pattern;
    hide Both;
    if r != k {
      StrictText(k);
      StrictText(r);
      BothParts(Pattern(r), Pattern(k), x, env);
      BothRoots(Pattern(r).b, Pattern(k).b, x.right, env);
    }
  }

  lemma PutFieldText(k: int)
    requires k in FIELD_CODES
    ensures Pattern(k) == PutField(PlaceMode(k), if k == 185 then Immediate else General, NewField(k))
  {}

  function PlaceMode(k: int): Mode { if k in {190, 191, 192, 193} then QI else SI }

  function NewField(k: int): Pat {
    match k
    case 190 => P2(XOR, SI, P3(ZERO_EXTRACT, SI, Dup(0), Dup(1), Dup(2)), Op(3, Immediate, VOID))
    case 191 => Int(0)
    case 192 => Int(-1)
    case 196 => Int(0)
    case 197 => Int(-1)
    case _ => Op(3, General, SI)
  }

  lemma NewFieldsMeet(k: int, r: int, x: Rtx, env: Env)
    requires Sane(env) && Both(NewField(r), NewField(k), x, env)
    requires k in FIELD_CODES && r in FIELD_CODES && r <= k && PlaceMode(k) == PlaceMode(r)
    ensures r in Alternatives(k)
  {
    hide Both;
    BothRoots(NewField(r), NewField(k), x, env);
  }

  lemma PutFieldsLower(k: int, r: int, x: Rtx, env: Env)
    requires Sane(env) && Both(Pattern(r), Pattern(k), x, env)
    requires k in FIELD_CODES && r in FIELD_CODES && r <= k
    ensures r in Alternatives(k)
  {
    hide Pattern;
    hide Both;
    hide Alternatives;
    hide NewField;
    PutFieldText(k);
    PutFieldText(r);
    var p, q := Pattern(r), Pattern(k);
    BothParts(p, q, x, env);
    BothParts(p.a, q.a, x.left, env);
    BothRoots(p.a.a, q.a.a, x.left.fst, env);
    NewFieldsMeet(k, r, x.right, env);
  }

  // --------------------------------------------------------------------------
  // Destinations that are operands: moves

  // The source of a move is an operand, that of a load address an address.
  predicate Moved(k: int, m: Mode, s: Rtx) {
    k in Moves(m) ==> if k == 39 || k == 246 then AddressForm(s) else OperandForm(s)
  }

  lemma MoveText(k: int, m: Mode)
    requires k in Moves(m)
    ensures Pattern(k).P2? && (Pattern(k).b == Int(0) || Pattern(k).b.Op?)
    ensures Pattern(k).b.Op? ==>
        Pattern(k).b.m != VOID && Pattern(k).b.pred == if k == 39 || k == 246 then Address else General
  {}

  lemma MovedSource(k: int, x: Rtx, env: Env)
    requires Sane(env) && Is2(x, SET) && Matches(k, x, env)
    ensures Moved(k, x.left.mode, x.right)
  {
    hide Pattern;
    hide Moves;
    if k in Moves(x.left.mode) {
      MoveText(k, x.left.mode);
      ShapeStep(Pattern(k), x, env);
      RootText(Pattern(k).b, x.right, env);
    }
  }

  lemma MovesLower(k: int, r: int, m: Mode)
    requires k in Moves(m) && r in Moves(m) && r <= k
    ensures r in Alternatives(k)
  {}

  // Computed sources

  function ComputedCodes(m: Mode, s: Rtx): set<int> { Codes(Rows(m, s)) + Special(m, s) }

  lemma RowSource(k: int, m: Mode, s: Rtx)
    requires k in Codes(Rows(m, s))
    ensures !OperandForm(s) && (AddressForm(s) && m == SI ==> k in {78, 103, 104})
  {}

  lemma SpecialSource(k: int, m: Mode, s: Rtx)
    requires k in Special(m, s)
    ensures !OperandForm(s) && (AddressForm(s) && m == SI ==> k == 79)
  {}

  lemma MoveOrComputed(k: int, r: int, m: Mode, s: Rtx)
    requires (k in Moves(m) && r in ComputedCodes(m, s)) || (r in Moves(m) && k in ComputedCodes(m, s))
    requires Moved(k, m, s) && Moved(r, m, s) && r <= k
    ensures r in Alternatives(k)
  {
    hide Rows;
    hide Special;
    hide OperandForm;
    hide AddressForm;
    var j := if r in ComputedCodes(m, s) then r else k;
    if j in Codes(Rows(m, s)) { RowSource(j, m, s); } else { SpecialSource(j, m, s); }
  }

  lemma UnaryLower(k: int, r: int, c: Code1)
    requires r <= k
    ensures k in Codes(QiUnary(c)) && r in Codes(QiUnary(c)) ==> r in Alternatives(k)
    ensures k in Codes(HiUnary(c)) && r in Codes(HiUnary(c)) ==> r in Alternatives(k)
    ensures k in Codes(SiUnary(c)) && r in Codes(SiUnary(c)) ==> r in Alternatives(k)
  {}

  lemma RealUnaryLower(k: int, r: int, c: Code1)
    requires r <= k
    ensures k in Codes(SfUnary(c)) && r in Codes(SfUnary(c)) ==> r in Alternatives(k)
    ensures k in Codes(DfUnary(c)) && r in Codes(DfUnary(c)) ==> r in Alternatives(k)
  {}

  lemma QiBinaryLower(k: int, r: int, c: Code2)
    requires k in Codes(QiBinary(c)) && r in Codes(QiBinary(c)) && r <= k
    ensures r in Alternatives(k)
  {}

  lemma HiBinaryLower(k: int, r: int, c: Code2)
    requires k in Codes(HiBinary(c)) && r in Codes(HiBinary(c)) && r <= k
    ensures r in Alternatives(k)
  {}

  lemma SiBinaryLower(k: int, r: int, c: Code2)
    requires k in Codes(SiBinary(c)) && r in Codes(SiBinary(c)) && r <= k
    ensures r in Alternatives(k)
  {}

  lemma RealBinaryLower(k: int, r: int, c: Code2)
    requires r <= k
    ensures k in Codes(SfBinary(c)) && r in Codes(SfBinary(c)) ==> r in Alternatives(k)
    ensures k in Codes(DfBinary(c)) && r in Codes(DfBinary(c)) ==> r in Alternatives(k)
  {}

  lemma RowsLower(k: int, r: int, m: Mode, s: Rtx)
    requires k in Codes(Rows(m, s)) && r in Codes(Rows(m, s)) && r <= k
    ensures r in Alternatives(k)
  {
    hide Alternatives;
    hide Codes;
    Itself(k);
    CodesOfNone();
    match s
    case X1(c, _, _) =>
      hide QiUnary;
      hide HiUnary;
      hide SiUnary;
      hide SfUnary;
      hide DfUnary;
      UnaryLower(k, r, c);
      RealUnaryLower(k, r, c);
    case X2(c, _, _, _) =>
      hide QiBinary;
      hide HiBinary;
      hide SiBinary;
      hide SfBinary;
      hide DfBinary;
      if k in Codes(QiBinary(c)) && r in Codes(QiBinary(c)) { QiBinaryLower(k, r, c); }
      if k in Codes(HiBinary(c)) && r in Codes(HiBinary(c)) { HiBinaryLower(k, r, c); }
      if k in Codes(SiBinary(c)) && r in Codes(SiBinary(c)) { SiBinaryLower(k, r, c); }
      RealBinaryLower(k, r, c);
    case _ =>
  }

  lemma CodesOfNone()
    ensures Codes([]) == {}
  {}

  // Templates with a computed part, and the plain ones with the same source code

  lemma FlatText(k: int)
    requires k in {72, 75, 78, 85, 86, 88, 89, 90, 97, 98, 100, 101, 109, 110, 112, 113, 132}
    ensures Pattern(k).P2? && Flat(Pattern(k).b)
  {}

  lemma NestedText(k: int)
    requires k in {76, 77, 79, 91, 135, 136} || 248 <= k < 264
    ensures Pattern(k).P2? && Nested(Pattern(k).b)
  {}

  lemma RowAndSpecial(k: int, r: int, m: Mode, s: Rtx)
    requires r in Codes(Rows(m, s)) && k in Special(m, s) && r <= k
    ensures r in {72, 75, 78, 85, 86, 88, 89, 90, 97, 98, 100, 101, 109, 110, 112, 113, 132}
    ensures k in {76, 77, 79, 91, 135, 136} || 248 <= k < 264
  {}

  lemma SpecialAndRow(k: int, r: int, m: Mode, s: Rtx)
    requires k in Codes(Rows(m, s)) && r in Special(m, s) && r <= k
    ensures r in Alternatives(k)
  {}

  function DoubleFix(m: Mode): Pat {
    P2(SET, VOID, Op(0, General, SI), P1(FIX, SI, P1(FIX, m, Op(1, General, m))))
  }

  lemma DoubleFixText()
    ensures Pattern(76) == DoubleFix(SF) && Pattern(77) == DoubleFix(DF)
  {}

  lemma DoubleFixesApart(x: Rtx, env: Env)
    ensures !Both(Pattern(76), Pattern(77), x, env)
  {
    hide Pattern;
    hide Both;
    if Both(Pattern(76), Pattern(77), x, env) {
      DoubleFixText();
      var p, q := DoubleFix(SF), DoubleFix(DF);
      BothParts(p, q, x, env);
      BothParts(p.b, q.b, x.right, env);
      BothParts(p.b.a, q.b.a, x.right.arg, env);
    }
  }

  lemma GetFieldText(k: int)
    requires k in {186, 187, 188, 189, 194, 195}
    ensures Pattern(k).P2? && Pattern(k).b.P3?
    ensures Pattern(k).b.a == Op(1, Nonimmediate, if k == 188 || k == 189 then QI else SI)
  {}

  lemma GetFieldsLower(k: int, r: int, x: Rtx, env: Env)
    requires Sane(env) && Both(Pattern(r), Pattern(k), x, env)
    requires k in {186, 187, 188, 189, 194, 195} && r in {186, 187, 188, 189, 194, 195} && r <= k
    requires k in {187, 188, 194} <==> r in {187, 188, 194}
    ensures r in Alternatives(k)
  {
    hide Pattern;
    hide Both;
    Itself(k);
    GetFieldText(k);
    GetFieldText(r);
    var p, q := Pattern(r), Pattern(k);
    BothParts(p, q, x, env);
    BothParts(p.b, q.b, x.right, env);
    BothRoots(p.b.a, q.b.a, x.right.fst, env);
  }

  // The place and the code of the computed part of a fused operation.
  function InnerCode(k: int): Code2 { if k < 256 then MULT else if k < 260 then PLUS else MINUS }

  predicate InnerLeft(k: int) { k in {248, 250, 254, 255, 256, 258, 260, 262} }

  lemma FuseText(k: int)
    requires 248 <= k < 264
    ensures Pattern(k).P2? && Pattern(k).b.P2?
    ensures var inner := if InnerLeft(k) then Pattern(k).b.a else Pattern(k).b.b;
      var outer := if InnerLeft(k) then Pattern(k).b.b else Pattern(k).b.a;
      inner.P2? && inner.c2 == InnerCode(k) && Plain(outer)
  {}

  lemma FusesApart(k: int, r: int, m: Mode, x: Rtx, env: Env)
    requires Sane(env) && x.X2?
    requires 248 <= r < k < 264 && k in Special(m, x.right) && r in Special(m, x.right)
    ensures !Both(Pattern(r), Pattern(k), x, env)
  {
    hide Pattern;
    hide Both;
    if Both(Pattern(r), Pattern(k), x, env) {
      FuseText(k);
      FuseText(r);
      FuseChoice(k, r, m, x.right);
      var p, q := Pattern(r), Pattern(k);
      BothParts(p, q, x, env);
      BothParts(p.b, q.b, x.right, env);
      BothRoots(p.b.a, q.b.a, x.right.left, env);
      BothRoots(p.b.b, q.b.b, x.right.right, env);
      if InnerLeft(k) && InnerLeft(r) { BothParts(p.b.a, q.b.a, x.right.left, env); }
      if !InnerLeft(k) && !InnerLeft(r) { BothParts(p.b.b, q.b.b, x.right.right, env); }
    }
  }

  lemma FuseChoice(k: int, r: int, m: Mode, s: Rtx)
    requires 248 <= r < k < 264 && k in Special(m, s) && r in Special(m, s)
    ensures InnerLeft(k) != InnerLeft(r) || InnerCode(k) != InnerCode(r)
  {}

  lemma SpecialsLower(k: int, r: int, m: Mode, x: Rtx, env: Env)
    requires Sane(env) && x.X2? && Both(Pattern(r), Pattern(k), x, env)
    requires k in Special(m, x.right) && r in Special(m, x.right) && 0 <= r <= k
    ensures r in Alternatives(k)
  {
    hide Pattern;
    hide Both;
    Itself(k);
    if r != k {
      if k == 77 {
        DoubleFixesApart(x, env);
      } else if 248 <= k {
        FusesApart(k, r, m, x, env);
      } else if k in {186, 187, 188, 189, 194, 195} {
        GetFieldsLower(k, r, x, env);
      }
    }
  }

  lemma OperandLower(k: int, r: int, m: Mode, x: Rtx, env: Env)
    requires Sane(env) && x.X2? && Both(Pattern(r), Pattern(k), x, env)
    requires k in OperandCodes(m, x.right) && r in OperandCodes(m, x.right) && 0 <= r <= k
    requires Moved(k, m, x.right) && Moved(r, m, x.right)
    ensures r in Alternatives(k)
  {
    hide Pattern;
    hide Both;
    hide Alternatives;
    hide Moved;
    hide Moves;
    hide Rows;
    hide Special;
    var s := x.right;
    if k in Moves(m) && r in Moves(m) {
      MovesLower(k, r, m);
    } else if k in Moves(m) || r in Moves(m) {
      MoveOrComputed(k, r, m, s);
    } else if k in Codes(Rows(m, s)) {
      if r in Codes(Rows(m, s)) { RowsLower(k, r, m, s); } else { SpecialAndRow(k, r, m, s); }
    } else if r in Special(m, s) {
      SpecialsLower(k, r, m, x, env);
    } else {
      RowAndSpecial(k, r, m, s);
      FlatText(r);
      NestedText(k);
      FlatOrNested(Pattern(r), Pattern(k), x, env);
    }
  }

  // --------------------------------------------------------------------------
  // Pairs

  lemma FlagPairText(k: int)
    requires k in {6, 9, 15, 18}
    ensures Pattern(k).PPar? && Pattern(k).a.P2? && if k < 10 then Plain(Pattern(k).a.b) else Pattern(k).a.b.P2?
  {}

  lemma DividePairText(k: int)
    requires k in {130, 131}
    ensures Pattern(k).PPar? && Pattern(k).a.P2?
    ensures Pattern(k).a.b.P2? && Pattern(k).a.b.c2 == if k == 130 then DIV else UDIV
  {}

  lemma FlagPairsLower(k: int, r: int, x: Rtx, env: Env)
    requires Sane(env) && Both(Pattern(r), Pattern(k), x, env)
    requires k in {6, 9, 15, 18} && r in {6, 9, 15, 18} && r <= k
    ensures r in Alternatives(k)
  {
    hide Pattern;
    hide Both;
    if r < 10 <= k {
      FlagPairText(k);
      FlagPairText(r);
      var p, q := Pattern(r), Pattern(k);
      BothParts(p, q, x, env);
      BothParts(p.a, q.a, x.elems[0], env);
      BothRoots(p.a.b, q.a.b, x.elems[0].right, env);
    }
  }

  lemma DividePairsApart(x: Rtx, env: Env)
    ensures !Both(Pattern(130), Pattern(131), x, env)
  {
    hide Pattern;
    hide Both;
    if Both(Pattern(130), Pattern(131), x, env) {
      DividePairText(130);
      DividePairText(131);
      var p, q := Pattern(130), Pattern(131);
      BothParts(p, q, x, env);
      BothParts(p.a, q.a, x.elems[0], env);
      BothParts(p.a.b, q.a.b, x.elems[0].right, env);
    }
  }

  lemma PairLower(k: int, r: int, x: Rtx, env: Env)
    requires Sane(env) && SetPair(x) && Matches(k, x, env) && Matches(r, x, env) && 0 <= r <= k
    ensures r in Alternatives(k)
  {
    hide Pattern;
    hide Alternatives;
    hide DupsAgree;
    hide Condition;
    Itself(k);
    PairIndex(x, env);
    CountCodes(x, env);
    if k in {6, 9, 15, 18} {
      FlagPairsLower(k, r, x, env);
    } else if k == 131 && r == 130 {
      DividePairsApart(x, env);
    }
  }

  // --------------------------------------------------------------------------
  // Every lower code an insn matches is among the alternatives of any of its codes;
  // halfword and byte moves into a low part are treated with the recogniser.

  lemma SetLower(k: int, r: int, x: Rtx, env: Env)
    requires Sane(env) && Is2(x, SET) && !VoidConstant(x.left)
    requires Matches(k, x, env) && Matches(r, x, env) && 0 <= r <= k && !(r == 33 && k == 35)
    ensures r in Alternatives(k)
  {
    hide Pattern;
    hide Alternatives;
    hide DupsAgree;
    hide Condition;
    hide CcSpecial;
    hide PcCodes;
    hide StrictSpecial;
    hide TestedOperand;
    hide Moved;
    hide OperandForm;
    var d := x.left;
    SetIndexAll(x, env);
    OnlyCall(x, env);
    Itself(k);
    if k != 244 && r != 244 {
      if d == CC0_RTX {
        TestSource(r, x, env);
        CcLower(k, r, x, env);
      } else if d == PC_RTX {
        PcLower(k, r, x, env);
      } else if Is1(d, STRICT_LOW_PART) {
        StrictLower(k, r, x, env);
      } else if Is3(d, ZERO_EXTRACT) {
        PutFieldsLower(k, r, x, env);
      } else {
        MovedSource(k, x, env);
        MovedSource(r, x, env);
        OperandLower(k, r, d.mode, x, env);
      }
    }
  }

  lemma LowerCodes(k: int, r: int, x: Rtx, env: Env)
    requires Sane(env) && (Is2(x, SET) ==> !VoidConstant(x.left))
    requires Matches(k, x, env) && Matches(r, x, env) && 0 <= r <= k && !(r == 33 && k == 35)
    ensures r in Alternatives(k)
  {
    hide Matches;
    hide Alternatives;
    Itself(k);
    OtherRoots(x, env);
    if Is2(x, SET) { SetLower(k, r, x, env); }
    else if SetPair(x) { PairLower(k, r, x, env); }
  }
}
