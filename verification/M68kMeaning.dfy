// What a match of each special m68k template means, written out: one lemma per
// group of codes that the recogniser tries together.

module M68kMeaning {
  import opened Rtl
  import opened Patterns
  import opened M68kDescription
  import opened M68kIndex

  // --------------------------------------------------------------------------
  // Destination (cc0)

  predicate TestMeaning(k: int, m: Mode, flag: bool, x: Rtx, env: Env)
    requires Is2(x, SET)
  {
    (Matches(k, x, env) <==> env.accepts(General, x.right, m) && flag) && Extract(k, x) == [x.right]
  }

  lemma IntegerTestRows(x: Rtx, env: Env)
    requires Is2(x, SET) && x.left == CC0_RTX
    ensures TestMeaning(2, SI, true, x, env) && TestMeaning(3, HI, true, x, env) && TestMeaning(4, QI, true, x, env)
  {
    TestShape(SI, x, env);
    TestShape(HI, x, env);
    TestShape(QI, x, env);
  }

  lemma RealTestRows(x: Rtx, env: Env)
    requires Is2(x, SET) && x.left == CC0_RTX
    ensures TestMeaning(7, SF, env.t68881, x, env) && TestMeaning(10, DF, env.t68881, x, env)
  {
    TestShape(SF, x, env);
    TestShape(DF, x, env);
  }

  lemma TestRows(x: Rtx, env: Env)
    requires Is2(x, SET) && x.left == CC0_RTX
    ensures TestMeaning(2, SI, true, x, env) && TestMeaning(3, HI, true, x, env) && TestMeaning(4, QI, true, x, env)
    ensures TestMeaning(7, SF, env.t68881, x, env) && TestMeaning(10, DF, env.t68881, x, env)
  {
    hide TestMeaning;
    IntegerTestRows(x, env);
    RealTestRows(x, env);
  }

  predicate CompareMeaning(k: int, m: Mode, flag: bool, x: Rtx, env: Env)
    requires Is2(x, SET) && x.right.X2?
  {
    && (Matches(k, x, env) <==>
        env.accepts(General, x.right.left, m) && env.accepts(General, x.right.right, m) && flag)
    && Extract(k, x) == [x.right.left, x.right.right]
  }

  lemma CompareRows(x: Rtx, env: Env)
    requires Is2(x, SET) && x.left == CC0_RTX && Is2(x.right, COMPARE)
    ensures CompareMeaning(11, SI, true, x, env) && CompareMeaning(12, HI, true, x, env)
    ensures CompareMeaning(13, QI, true, x, env)
  {
    TestBinaryShape(COMPARE, VOID, SI, x, env);
    TestBinaryShape(COMPARE, VOID, HI, x, env);
    TestBinaryShape(COMPARE, VOID, QI, x, env);
  }

  lemma RealCompareRows(x: Rtx, env: Env)
    requires Is2(x, SET) && x.left == CC0_RTX && Is2(x.right, COMPARE)
    ensures CompareMeaning(16, DF, env.t68881, x, env) && CompareMeaning(19, SF, env.t68881, x, env)
  {}

  // y is a memory word shifted right by 24: the byte at the word's address.
  predicate TopOf(c: Code2, y: Rtx, env: Env) {
    Is2(y, c) && y.mode == SI && env.accepts(Memory, y.left, SI) && IsInt(y.right, 24)
  }

  predicate TopConstant(c: Code2, y: Rtx) { if c == LSHIFTRT then ByteConstant(y) else SignedByteConstant(y) }

  lemma TopByteShape(n: nat, c: Code2, y: Rtx, env: Env)
    ensures Shape(TopByte(n, c), y, env) <==> TopOf(c, y, env)
    ensures TopOf(c, y, env) ==> y.X2? && Xexp(y, 0) == y.left
  {}

  function TopByteOperand(n: nat): Pat { Op(n, General, QI) }

  // A comparison whose two sides are a and b.
  lemma TestBinaryLike(a: Pat, b: Pat, x: Rtx, env: Env)
    requires Is2(x, SET) && x.left == CC0_RTX && Is2(x.right, COMPARE)
    ensures Shape(P2(SET, VOID, Lit(CC0_RTX), P2(COMPARE, VOID, a, b)), x, env)
      <==> Shape(a, x.right.left, env) && Shape(b, x.right.right, env)
  {
    var p := P2(SET, VOID, Lit(CC0_RTX), P2(COMPARE, VOID, a, b));
    ShapeStep(p, x, env);
    ShapeStep(p.b, x.right, env);
  }

  lemma CompareTopText(k: int, c: Code2, x: Rtx, env: Env)
    requires Is2(x, SET) && Is2(x.right, COMPARE)
    requires (k == 163 && c == LSHIFTRT) || (k == 165 && c == ASHIFTRT)
    ensures Pattern(k) == CompareTop(c) && DupsAgree(k, x) && Extract(k, x) == [x.right.left, Xexp(x.right.right, 0)]
    ensures Condition(k, x, env) == (TopConstant(c, x.right.left) && Rereadable(Xexp(x.right.right, 0)))
  {}

  lemma CompareTopRow(k: int, c: Code2, x: Rtx, env: Env)
    requires Is2(x, SET) && x.left == CC0_RTX && Is2(x.right, COMPARE)
    requires (k == 163 && c == LSHIFTRT) || (k == 165 && c == ASHIFTRT)
    ensures var o, t := x.right.left, x.right.right;
      && (Matches(k, x, env) <==> (
            && env.accepts(General, o, QI) && TopOf(c, t, env) && TopConstant(c, o) && Rereadable(t.left)))
      && Extract(k, x) == [o, Xexp(t, 0)]
  {
    hide Pattern;
    hide DupsAgree;
    hide Condition;
    hide Extract;
    hide TopOf;
    hide TopConstant;
    hide TopByte;
    CompareTopText(k, c, x, env);
    TestBinaryLike(TopByteOperand(0), TopByte(1, c), x, env);
    TopByteShape(1, c, x.right.right, env);
  }

  lemma TopCompareText(k: int, c: Code2, x: Rtx, env: Env)
    requires Is2(x, SET) && Is2(x.right, COMPARE)
    requires (k == 164 && c == LSHIFTRT) || (k == 166 && c == ASHIFTRT)
    ensures Pattern(k) == TopCompare(c) && DupsAgree(k, x) && Extract(k, x) == [Xexp(x.right.left, 0), x.right.right]
    ensures Condition(k, x, env) == (TopConstant(c, x.right.right) && Rereadable(Xexp(x.right.left, 0)))
  {}

  lemma TopCompareRow(k: int, c: Code2, x: Rtx, env: Env)
    requires Is2(x, SET) && x.left == CC0_RTX && Is2(x.right, COMPARE)
    requires (k == 164 && c == LSHIFTRT) || (k == 166 && c == ASHIFTRT)
    ensures var t, o := x.right.left, x.right.right;
      && (Matches(k, x, env) <==> (
            && env.accepts(General, o, QI) && TopOf(c, t, env) && TopConstant(c, o) && Rereadable(t.left)))
      && Extract(k, x) == [Xexp(t, 0), o]
  {
    hide Pattern;
    hide DupsAgree;
    hide Condition;
    hide Extract;
    hide TopOf;
    hide TopConstant;
    hide TopByte;
    TopCompareText(k, c, x, env);
    TestBinaryLike(TopByte(0, c), TopByteOperand(1), x, env);
    TopByteShape(0, c, x.right.left, env);
  }

  // The bit numbered by register, by register masked, or by constant.
  predicate BitBase(m: Mode, s: Rtx, env: Env) {
    Is3(s, ZERO_EXTRACT) && env.accepts(Nonimmediate, s.fst, m) && IsInt(s.snd, 1)
  }

  predicate FromTop(top: int, y: Rtx) { Is2(y, MINUS) && y.mode == SI && IsInt(y.left, top) }

  predicate Masked(top: int, y: Rtx, env: Env) {
    Is2(y, AND) && y.mode == SI && env.accepts(General, y.left, SI) && IsInt(y.right, top)
  }

  predicate FixedBit(m: Mode, y: Rtx) { if m == QI then UnsignedBelow(y, 8) else Is0(y, CONST_INT) }

  lemma BitText(k: int, m: Mode, top: int, x: Rtx, env: Env)
    requires Is2(x, SET) && Is3(x.right, ZERO_EXTRACT)
    requires (k == 20 && m == QI && top == 7) || (k == 21 && m == SI && top == 31)
    ensures Pattern(k) == TestBit(m, P2(MINUS, SI, Int(top), Op(1, General, SI)))
    ensures DupsAgree(k, x) && Condition(k, x, env) && Extract(k, x) == [x.right.fst, Xexp(x.right.thd, 1)]
  {}

  lemma BitRow(k: int, m: Mode, top: int, x: Rtx, env: Env)
    requires Is2(x, SET) && x.left == CC0_RTX && Is3(x.right, ZERO_EXTRACT)
    requires (k == 20 && m == QI && top == 7) || (k == 21 && m == SI && top == 31)
    ensures var s := x.right; var y := s.thd;
      && (Matches(k, x, env) <==> BitBase(m, s, env) && FromTop(top, y) && env.accepts(General, y.right, SI))
      && Extract(k, x) == [s.fst, Xexp(y, 1)]
  {
    hide Pattern;
    hide DupsAgree;
    hide Condition;
    hide Extract;
    hide TestBit;
    hide Shape;
    hide BitBase;
    BitText(k, m, top, x, env);
    TestBitShape(m, P2(MINUS, SI, Int(top), Op(1, General, SI)), x, env);
    FromTopShape(top, x.right.thd, env);
  }

  lemma FromTopShape(top: int, y: Rtx, env: Env)
    ensures Shape(P2(MINUS, SI, Int(top), Op(1, General, SI)), y, env)
      <==> FromTop(top, y) && env.accepts(General, y.right, SI)
  {
    ShapeStep(P2(MINUS, SI, Int(top), Op(1, General, SI)), y, env);
  }

  lemma MaskedBitText(k: int, m: Mode, top: int, x: Rtx, env: Env)
    requires Is2(x, SET) && Is3(x.right, ZERO_EXTRACT)
    requires (k == 22 && m == QI && top == 7) || (k == 23 && m == SI && top == 31)
    ensures Pattern(k) == TestBit(m, P2(MINUS, SI, Int(top), P2(AND, SI, Op(1, General, SI), Int(top))))
    ensures DupsAgree(k, x) && Condition(k, x, env) && Extract(k, x) == [x.right.fst, Xexp(Xexp(x.right.thd, 1), 0)]
  {}

  lemma MaskedBitRow(k: int, m: Mode, top: int, x: Rtx, env: Env)
    requires Is2(x, SET) && x.left == CC0_RTX && Is3(x.right, ZERO_EXTRACT)
    requires (k == 22 && m == QI && top == 7) || (k == 23 && m == SI && top == 31)
    ensures var s := x.right; var y := s.thd;
      && (Matches(k, x, env) <==> BitBase(m, s, env) && FromTop(top, y) && Masked(top, y.right, env))
      && Extract(k, x) == [s.fst, Xexp(Xexp(y, 1), 0)]
  {
    hide Pattern;
    hide DupsAgree;
    hide Condition;
    hide Extract;
    hide TestBit;
    hide Shape;
    hide BitBase;
    MaskedBitText(k, m, top, x, env);
    var p := P2(MINUS, SI, Int(top), P2(AND, SI, Op(1, General, SI), Int(top)));
    TestBitShape(m, p, x, env);
    MaskedShape(top, x.right.thd, env);
  }

  lemma MaskedShape(top: int, y: Rtx, env: Env)
    ensures Shape(P2(MINUS, SI, Int(top), P2(AND, SI, Op(1, General, SI), Int(top))), y, env)
      <==> FromTop(top, y) && Masked(top, y.right, env)
  {
    var p := P2(MINUS, SI, Int(top), P2(AND, SI, Op(1, General, SI), Int(top)));
    ShapeStep(p, y, env);
    if y.X2? { ShapeStep(p.b, y.right, env); }
  }

  lemma TestBitShape(m: Mode, position: Pat, x: Rtx, env: Env)
    requires Is2(x, SET) && x.left == CC0_RTX && Is3(x.right, ZERO_EXTRACT)
    ensures Shape(TestBit(m, position), x, env) <==> BitBase(m, x.right, env) && Shape(position, x.right.thd, env)
  {
    var p := TestBit(m, position);
    ShapeStep(p, x, env);
    ShapeStep(p.b, x.right, env);
  }

  lemma FixedBitText(k: int, m: Mode, x: Rtx, env: Env)
    requires Is2(x, SET) && Is3(x.right, ZERO_EXTRACT)
    requires (k == 24 && m == QI) || (k == 25 && m == HI) || (k == 26 && m == SI)
    ensures Pattern(k) == TestBit(m, Op(1, General, SI)) && DupsAgree(k, x)
    ensures Condition(k, x, env) == FixedBit(m, x.right.thd) && Extract(k, x) == [x.right.fst, x.right.thd]
  {}

  lemma FixedBitRow(k: int, m: Mode, x: Rtx, env: Env)
    requires Is2(x, SET) && x.left == CC0_RTX && Is3(x.right, ZERO_EXTRACT)
    requires (k == 24 && m == QI) || (k == 25 && m == HI) || (k == 26 && m == SI)
    ensures var s := x.right;
      && (Matches(k, x, env) <==> BitBase(m, s, env) && env.accepts(General, s.thd, SI) && FixedBit(m, s.thd))
      && Extract(k, x) == [s.fst, s.thd]
  {
    hide Pattern;
    hide DupsAgree;
    hide Condition;
    hide Extract;
    FixedBitText(k, m, x, env);
    TestBitShape(m, Op(1, General, SI), x, env);
  }

  // y is a bit field of a place that satisfies p in mode m.
  predicate FieldOf(y: Rtx, p: Predicate, m: Mode, env: Env) {
    && Is3(y, ZERO_EXTRACT) && y.mode == SI && env.accepts(p, y.fst, m)
    && env.accepts(General, y.snd, SI) && env.accepts(General, y.thd, SI)
  }

  predicate ConstantWidth(y: Rtx, env: Env)
    requires y.X3?
  {
    env.t68020 && env.tBitfield && Is0(y.snd, CONST_INT)
  }

  // Code k tests the field y, which is x's source or a part of it.
  predicate FieldMeaning(k: int, p: Predicate, m: Mode, y: Rtx, x: Rtx, env: Env)
    requires y.X3?
  {
    && (Matches(k, x, env) <==> FieldOf(y, p, m, env) && ConstantWidth(y, env))
    && Extract(k, x) == [y.fst, y.snd, y.thd]
  }

  lemma FieldPatShape(p: Predicate, m: Mode, y: Rtx, env: Env)
    ensures Shape(FieldPat(ZERO_EXTRACT, p, m), y, env) <==> FieldOf(y, p, m, env)
  {}

  lemma FieldRows(x: Rtx, env: Env)
    requires Is2(x, SET) && x.left == CC0_RTX && Is3(x.right, ZERO_EXTRACT) && x.right.mode == SI
    ensures FieldMeaning(199, Memory, QI, x.right, x, env)
    ensures FieldMeaning(202, Nonimmediate, SI, x.right, x, env)
  {
    hide FieldMeaning;
    FieldRow(199, Memory, QI, x, env);
    FieldRow(202, Nonimmediate, SI, x, env);
  }

  lemma FieldRow(k: int, p: Predicate, m: Mode, x: Rtx, env: Env)
    requires Is2(x, SET) && x.left == CC0_RTX && Is3(x.right, ZERO_EXTRACT) && x.right.mode == SI
    requires (k == 199 && p == Memory && m == QI) || (k == 202 && p == Nonimmediate && m == SI)
    ensures FieldMeaning(k, p, m, x.right, x, env)
  {
    FieldPatShape(p, m, x.right, env);
    ShapeStep(TestField(p, m), x, env);
  }

  lemma SubfieldText(k: int, w: Mode, p: Predicate, m: Mode, x: Rtx, env: Env)
    requires Is2(x, SET) && x.right.Subreg?
    requires (k == 200 && w == QI && p == Memory && m == QI) || (k == 201 && w == HI && p == Memory && m == QI)
      || (k == 203 && w == QI && p == Nonimmediate && m == SI) || (k == 204 && w == HI && p == Nonimmediate && m == SI)
    ensures Pattern(k) == TestSubfield(w, p, m) && DupsAgree(k, x)
    ensures x.right.reg.X3? ==>
        Extract(k, x) == [x.right.reg.fst, x.right.reg.snd, x.right.reg.thd]
        && Condition(k, x, env) == ConstantWidth(x.right.reg, env)
  {}

  lemma SubfieldRow(k: int, w: Mode, p: Predicate, m: Mode, x: Rtx, env: Env)
    requires Is2(x, SET) && x.left == CC0_RTX && x.right.Subreg? && x.right.mode == w && x.right.word == 0
    requires (k == 200 && w == QI && p == Memory && m == QI) || (k == 201 && w == HI && p == Memory && m == QI)
      || (k == 203 && w == QI && p == Nonimmediate && m == SI) || (k == 204 && w == HI && p == Nonimmediate && m == SI)
    ensures if x.right.reg.X3? then FieldMeaning(k, p, m, x.right.reg, x, env) else !Matches(k, x, env)
    ensures Matches(k, x, env) ==> Is3(x.right.reg, ZERO_EXTRACT) && x.right.reg.mode == SI
  {
    hide FieldPat;
    hide Pattern;
    hide DupsAgree;
    hide Condition;
    hide Extract;
    var q := TestSubfield(w, p, m);
    SubfieldText(k, w, p, m, x, env);
    FieldPatShape(p, m, x.right.reg, env);
    ShapeStep(q, x, env);
    ShapeStep(q.b, x.right, env);
  }

  lemma SignBitText(x: Rtx, env: Env)
    requires Is2(x, SET) && x.right.Subreg?
    ensures Pattern(27) ==
      P2(SET, VOID, Lit(CC0_RTX), PSub(SI, P2(LSHIFTRT, QI, Op(0, Nonimmediate, QI), Int(7)), 0))
    ensures DupsAgree(27, x) && Condition(27, x, env) && Extract(27, x) == [Xexp(x.right.reg, 0)]
  {}

  lemma SignBitRow(x: Rtx, env: Env)
    requires Is2(x, SET) && x.left == CC0_RTX && x.right.Subreg? && x.right.mode == SI && x.right.word == 0
    ensures var y := x.right.reg;
      && (Matches(27, x, env) <==>
          Is2(y, LSHIFTRT) && y.mode == QI && env.accepts(Nonimmediate, y.left, QI) && IsInt(y.right, 7))
      && Extract(27, x) == [Xexp(y, 0)]
  {
    hide Pattern;
    hide DupsAgree;
    hide Condition;
    hide Extract;
    hide Shape;
    SignBitText(x, env);
    var p := Pattern(27);
    ShapeStep(p, x, env);
    ShapeLeaf(p.a, x.left, env);
    ShapeStep(p.b, x.right, env);
    ShapeStep(p.b.a, x.right.reg, env);
    if x.right.reg.X2? {
      ShapeLeaf(p.b.a.a, x.right.reg.left, env);
      ShapeLeaf(p.b.a.b, x.right.reg.right, env);
    }
  }

  predicate PowerOfTwoByte(y: Rtx) { Is0(y, CONST_INT) && y.val in {1, 2, 4, 8, 16, 32, 64, 128} }

  lemma PowerText(x: Rtx, env: Env)
    requires Is2(x, SET) && Is2(x.right, AND)
    ensures Pattern(28) == P2(SET, VOID, Lit(CC0_RTX),
        P2(AND, SI, P1(SIGN_EXTEND, SI, P1(SIGN_EXTEND, HI, Op(0, Nonimmediate, QI))), Op(1, General, SI)))
    ensures DupsAgree(28, x) && Condition(28, x, env) == PowerOfTwoByte(x.right.right)
    ensures Extract(28, x) == [Xexp(Xexp(x.right.left, 0), 0), x.right.right]
  {}

  lemma PowerRow(x: Rtx, env: Env)
    requires Is2(x, SET) && x.left == CC0_RTX && Is2(x.right, AND) && x.right.mode == SI
    ensures var y, z := x.right.left, x.right.right;
      && (Matches(28, x, env) <==> (
            && Is1(y, SIGN_EXTEND) && y.mode == SI && Is1(y.arg, SIGN_EXTEND) && y.arg.mode == HI
            && env.accepts(Nonimmediate, y.arg.arg, QI) && env.accepts(General, z, SI) && PowerOfTwoByte(z)))
      && Extract(28, x) == [Xexp(Xexp(y, 0), 0), z]
  {
    hide Pattern;
    hide DupsAgree;
    hide Condition;
    hide Extract;
    PowerText(x, env);
    var p := Pattern(28);
    ShapeStep(p, x, env);
    ShapeStep(p.b, x.right, env);
    ShapeStep(p.b.a, x.right.left, env);
    if x.right.left.X1? { ShapeStep(p.b.a.a, x.right.left.arg, env); }
  }

  lemma CcSpecialRange(s: Rtx)
    ensures forall k :: k in CcSpecial(s) ==> 11 <= k
  {}

  // The place a tested bit is in has the mode of the group of its code.
  lemma BitModes(x: Rtx, env: Env)
    requires Sane(env) && Is2(x, SET) && x.left == CC0_RTX && Is3(x.right, ZERO_EXTRACT)
    ensures forall k :: k in {20, 22, 24} && Matches(k, x, env) ==> x.right.fst.mode == QI
    ensures Matches(25, x, env) ==> x.right.fst.mode == HI
    ensures forall k :: k in {21, 23, 26} && Matches(k, x, env) ==> x.right.fst.mode == SI
  {
    hide Matches;
    hide Extract;
    BitRow(20, QI, 7, x, env);
    BitRow(21, SI, 31, x, env);
    MaskedBitRow(22, QI, 7, x, env);
    MaskedBitRow(23, SI, 31, x, env);
    FixedBitRow(24, QI, x, env);
    FixedBitRow(25, HI, x, env);
    FixedBitRow(26, SI, x, env);
  }

  // --------------------------------------------------------------------------
  // Destination (pc)

  lemma JumpText(c: Code2, x: Rtx, env: Env)
    requires JumpCode(c) != -1 && Is2(x, SET) && x.right.X3?
    ensures var k := JumpCode(c); 215 <= k < 225 && Pattern(k) == Branch(c) && DupsAgree(k, x) && Condition(k, x, env)
    ensures Extract(JumpCode(c), x) == [Xexp(x.right.snd, 0)]
  {
    hide Pattern;
    JumpPatternText(c);
  }

  lemma JumpPatternText(c: Code2)
    requires JumpCode(c) != -1
    ensures Pattern(JumpCode(c)) == Branch(c)
  {}

  lemma JumpRow(c: Code2, x: Rtx, env: Env)
    requires Sane(env) && Is2(x, SET) && x.left == PC_RTX && Is3(x.right, IF_THEN_ELSE) && JumpCode(c) != -1
    ensures var k, s := JumpCode(c), x.right;
      && 215 <= k < 225
      && (Matches(k, x, env) <==> IsFlag(c, s.fst) && Is1(s.snd, LABEL_REF) && s.thd == PC_RTX)
      && Extract(k, x) == [Xexp(s.snd, 0)]
  {
    hide Pattern;
    hide DupsAgree;
    hide Condition;
    hide Extract;
    hide Branch;
    hide IsFlag;
    JumpText(c, x, env);
    BranchShape(c, x, env);
  }

  lemma InvertedJumpRow(c: Code2, x: Rtx, env: Env)
    requires Sane(env) && Is2(x, SET) && x.left == PC_RTX && Is3(x.right, IF_THEN_ELSE) && JumpCode(c) != -1
    ensures var k, s := JumpCode(c) + 10, x.right;
      && (Matches(k, x, env) <==> IsFlag(c, s.fst) && s.snd == PC_RTX && Is1(s.thd, LABEL_REF))
      && Extract(k, x) == [Xexp(s.thd, 0)]
  {
    BranchShape(c, x, env);
  }

  lemma LabelRow(x: Rtx, env: Env)
    requires Sane(env) && Is2(x, SET) && x.left == PC_RTX && Is1(x.right, LABEL_REF)
    ensures Matches(239, x, env) && Extract(239, x) == [x.right.arg]
  {
    ShapeStep(Pattern(239), x, env);
    LabelShape(0, x.right, env);
  }

  lemma CallRow(x: Rtx, env: Env)
    requires Sane(env) && Is2(x, SET)
    ensures Matches(244, x, env) <==>
        Is2(x.right, CALL) && env.accepts(General, x.right.left, QI) && env.accepts(General, x.right.right, SI)
    ensures Extract(244, x) == [x.left, Xexp(x.right, 0), Xexp(x.right, 1)]
  {
    ShapeStep(Pattern(244), x, env);
    ShapeStep(Pattern(244).b, x.right, env);
  }

  // --------------------------------------------------------------------------
  // Destination (strict_low_part ...)

  lemma StrictMoveRow(k: int, m: Mode, x: Rtx, env: Env)
    requires Is2(x, SET) && Is1(x.left, STRICT_LOW_PART) && ((k == 35 && m == QI) || (k == 33 && m == HI))
    ensures Matches(k, x, env) <==> env.accepts(General, x.left.arg, m) && env.accepts(General, x.right, m)
    ensures Extract(k, x) == [x.left.arg, x.right]
  {}

  function StrictCode(m: Mode, c: Code2): int {
    if m == QI then if c == PLUS then 83 else 95 else if c == PLUS then 81 else 93
  }

  lemma StrictRow(m: Mode, c: Code2, x: Rtx, env: Env)
    requires Is2(x, SET) && Is1(x.left, STRICT_LOW_PART) && (m == QI || m == HI) && (c == PLUS || c == MINUS)
    ensures StrictMeaning(StrictCode(m, c), c, m, x, env)
  {
    hide StrictBinary;
    hide RtxEqual;
    StrictBinaryShape(m, c, x, env);
  }

  // A part that can be written both as a byte and as a halfword.
  predicate BothModes(x: Rtx, env: Env) { Matches(33, x, env) && Matches(35, x, env) }

  lemma StrictMoveHead(k: int, m: Mode, x: Rtx, env: Env)
    requires Matches(k, x, env) && ((k == 33 && m == HI) || (k == 35 && m == QI))
    ensures Is2(x, SET) && Is1(x.left, STRICT_LOW_PART) && env.accepts(General, x.left.arg, m)
  {
    ShapeStep(StrictMove(m), x, env);
    ShapeStep(StrictMove(m).a, x.left, env);
  }

  lemma BothModesStrict(x: Rtx, env: Env)
    requires Sane(env)
    ensures BothModes(x, env) ==> Is2(x, SET) && Is1(x.left, STRICT_LOW_PART) && VoidConstant(x.left.arg)
  {
    hide Matches;
    if BothModes(x, env) {
      StrictMoveHead(33, HI, x, env);
      StrictMoveHead(35, QI, x, env);
    }
  }

  // But for that, the codes tried in QImode and in HImode exclude each other.
  lemma StrictOrder(x: Rtx, env: Env)
    requires Sane(env) && Is2(x, SET) && Is1(x.left, STRICT_LOW_PART)
    ensures forall k, j :: k in {35, 83, 95} && j in {33, 81, 93} && Matches(k, x, env) && Matches(j, x, env) ==>
        k == 35 && j == 33
  {
    hide Matches;
    hide Extract;
    hide RtxEqual;
    StrictMoveRow(35, QI, x, env);
    StrictMoveRow(33, HI, x, env);
    StrictRow(QI, PLUS, x, env);
    StrictRow(QI, MINUS, x, env);
    StrictRow(HI, PLUS, x, env);
    StrictRow(HI, MINUS, x, env);
  }

  predicate StrictMeaning(k: int, c: Code2, m: Mode, x: Rtx, env: Env)
    requires Is2(x, SET) && x.left.X1?
  {
    && (Matches(k, x, env) <==> (
          && env.accepts(General, x.left.arg, m) && Is2(x.right, c) && x.right.mode == m
          && RtxEqual(x.right.left, x.left.arg) && env.accepts(General, x.right.right, m)))
    && Extract(k, x) == [x.left.arg, Xexp(x.right, 1)]
  }

  lemma StrictBinaryShape(m: Mode, c: Code2, x: Rtx, env: Env)
    requires Is2(x, SET) && Is1(x.left, STRICT_LOW_PART) && m != VOID
    ensures Shape(StrictBinary(m, c), x, env) <==> (
        && env.accepts(General, x.left.arg, m) && Is2(x.right, c) && x.right.mode == m
        && env.accepts(General, x.right.right, m))
  {
    var p := StrictBinary(m, c);
    ShapeStep(p, x, env);
    ShapeStep(p.a, x.left, env);
    ShapeStep(p.b, x.right, env);
  }

  // --------------------------------------------------------------------------
  // Operand destinations

  predicate MoveMeaning(k: int, p: Predicate, m: Mode, x: Rtx, env: Env)
    requires Is2(x, SET)
  {
    && (Matches(k, x, env) <==> env.accepts(p, x.left, m) && env.accepts(General, x.right, m))
    && Extract(k, x) == [x.left, x.right]
  }

  lemma SmallMoveRows(x: Rtx, env: Env)
    requires Is2(x, SET)
    ensures MoveMeaning(34, General, QI, x, env) && MoveMeaning(32, General, HI, x, env)
    ensures MoveMeaning(36, General, SF, x, env)
  {
    MoveShape(General, QI, x, env);
    MoveShape(General, HI, x, env);
    MoveShape(General, SF, x, env);
  }

  lemma WideMoveRow(k: int, p: Predicate, m: Mode, x: Rtx, env: Env)
    requires Is2(x, SET)
    requires (k == 1 && p == Push && m == DI) || (k == 38 && p == General && m == DI)
      || (k == 0 && p == Push && m == DF) || (k == 37 && p == General && m == DF)
    ensures MoveMeaning(k, p, m, x, env)
  {
    MoveShape(p, m, x, env);
  }

  lemma WideMoveRows(x: Rtx, env: Env)
    requires Is2(x, SET)
    ensures MoveMeaning(1, Push, DI, x, env) && MoveMeaning(38, General, DI, x, env)
    ensures MoveMeaning(0, Push, DF, x, env) && MoveMeaning(37, General, DF, x, env)
  {
    hide MoveMeaning;
    WideMoveRow(1, Push, DI, x, env);
    WideMoveRow(38, General, DI, x, env);
    WideMoveRow(0, Push, DF, x, env);
    WideMoveRow(37, General, DF, x, env);
  }

  predicate ShortConstant(y: Rtx) { Is0(y, CONST_INT) && -0x8000 <= y.val < 0x8000 }

  predicate Clearable(y: Rtx, env: Env) { env.t68020 || !(y.Mem? && y.volatil) }

  lemma SiPlainMoveRows(x: Rtx, env: Env)
    requires Is2(x, SET)
    ensures Matches(29, x, env) <==>
        env.accepts(Push, x.left, SI) && env.accepts(General, x.right, SI) && ShortConstant(x.right)
    ensures Matches(30, x, env) <==> env.accepts(General, x.left, SI) && IsInt(x.right, 0) && Clearable(x.left, env)
    ensures MoveMeaning(31, General, SI, x, env)
    ensures Extract(29, x) == [x.left, x.right] && Extract(30, x) == [x.left]
  {
    MoveShape(Push, SI, x, env);
    MoveShape(General, SI, x, env);
    ShapeStep(Pattern(30), x, env);
  }

  lemma SiAddressRows(x: Rtx, env: Env)
    requires Is2(x, SET)
    ensures Matches(39, x, env) <==> env.accepts(Push, x.left, SI) && env.accepts(Address, x.right, SI)
    ensures Matches(246, x, env) <==> env.accepts(General, x.left, SI) && env.accepts(Address, x.right, QI)
    ensures Extract(39, x) == Extract(246, x) == [x.left, x.right]
  {
    ShapeStep(Pattern(39), x, env);
    ShapeStep(Pattern(246), x, env);
  }

  lemma SiMoveRows(x: Rtx, env: Env)
    requires Is2(x, SET)
    ensures Matches(29, x, env) <==>
        env.accepts(Push, x.left, SI) && env.accepts(General, x.right, SI) && ShortConstant(x.right)
    ensures Matches(30, x, env) <==> env.accepts(General, x.left, SI) && IsInt(x.right, 0) && Clearable(x.left, env)
    ensures MoveMeaning(31, General, SI, x, env)
    ensures Matches(39, x, env) <==> env.accepts(Push, x.left, SI) && env.accepts(Address, x.right, SI)
    ensures Matches(246, x, env) <==> env.accepts(General, x.left, SI) && env.accepts(Address, x.right, QI)
    ensures Extract(29, x) == Extract(39, x) == Extract(246, x) == [x.left, x.right] && Extract(30, x) == [x.left]
  {
    hide Matches;
    hide Extract;
    SiPlainMoveRows(x, env);
    SiAddressRows(x, env);
  }

  lemma StoreFlagRow(c: Code2, x: Rtx, env: Env)
    requires Is2(x, SET) && StoreFlagCode(c) != -1
    ensures var k := StoreFlagCode(c);
      && 205 <= k
      && (Matches(k, x, env) <==> env.accepts(General, x.left, QI) && IsFlag(c, x.right))
      && Extract(k, x) == [x.left]
  {
    StoreFlagShape(c, x, env);
  }

  // Codes found through the source need a general operand as destination.
  lemma RowsNeedOperand(x: Rtx, env: Env)
    requires Is2(x, SET) && !env.accepts(General, x.left, x.left.mode)
    ensures forall k :: k in Codes(Rows(x.left.mode, x.right)) ==> !Matches(k, x, env)
  {
    hide Rows;
    hide Codes;
    hide Matches;
    hide Extract;
    RowsMean(x.left.mode, x, env);
  }

  lemma FlagsNeedOperand(x: Rtx, env: Env)
    requires Is2(x, SET)
    ensures forall k :: k in FlagCodes(x.right) && Matches(k, x, env) ==> env.accepts(General, x.left, QI)
  {
    hide Matches;
    hide Extract;
    hide StoreFlagCode;
    if FlagCodes(x.right) != {} { StoreFlagRow(x.right.code2, x, env); }
  }

  lemma NoRows(m: Mode, s: Rtx)
    requires m !in {QI, HI, SI, DI, SF, DF}
    ensures OperandCodes(m, s) == {}
  {}

  // A source of recog_5 is no field, and its codes increase past those of the moves.
  lemma SiOrder(x: Rtx)
    requires Is2(x, SET)
    ensures x.right.X3? || ExtractCodes(x.right) == {}
    ensures x.right.X3? ==> SiSpecial(x.right) == {} && Codes(Rows(SI, x.right)) == {}
  {}

  // Every source of an SImode destination needs a general operand.
  lemma SiNeedsOperand(x: Rtx, env: Env)
    requires Is2(x, SET) && x.left.mode == SI && !env.accepts(General, x.left, SI)
    ensures forall k :: k in Codes(Rows(SI, x.right)) + Special(SI, x.right) + {246} ==> !Matches(k, x, env)
  {
    hide Matches;
    hide Rows;
    hide SiSpecial;
    hide ExtractCodes;
    hide Extract;
    RowsNeedOperand(x, env);
    SiMoveRows(x, env);
    SpecialNeedsOperand(x, env);
  }

  lemma SpecialNeedsOperand(x: Rtx, env: Env)
    requires Is2(x, SET) && !env.accepts(General, x.left, SI)
    ensures forall k :: k in SiSpecial(x.right) + ExtractCodes(x.right) ==> !Matches(k, x, env)
  {
    hide Matches;
    hide Extract;
    var s := x.right;
    if s.mode == SI {
      if Is1(s, FIX) {
        DoubleFixRow(76, SF, x, env);
        DoubleFixRow(77, DF, x, env);
      } else if Is2(s, PLUS) {
        ExtendedAddRow(79, PLUS, x, env);
      } else if Is2(s, MINUS) {
        ExtendedAddRow(91, MINUS, x, env);
      } else if Is2(s, AND) {
        ExtendedAndRow(135, HI, 0x1_0000, x, env);
        ExtendedAndRow(136, QI, 0x100, x, env);
      } else if Is2(s, ASHIFTRT) {
        TopByteRow(161, ASHIFTRT, x, env);
      } else if Is2(s, LSHIFTRT) {
        TopByteRow(162, LSHIFTRT, x, env);
      } else if Is3(s, ZERO_EXTRACT) {
        GetFieldRow(189, ZERO_EXTRACT, QI, x, env);
        GetFieldRow(195, ZERO_EXTRACT, SI, x, env);
        GetUnitRow(186, ZERO_EXTRACT, x, env);
      } else if Is3(s, SIGN_EXTRACT) {
        GetFieldRow(188, SIGN_EXTRACT, QI, x, env);
        GetFieldRow(194, SIGN_EXTRACT, SI, x, env);
        GetUnitRow(187, SIGN_EXTRACT, x, env);
      }
    }
  }

  // A row that matches a QImode source leaves no flag to store.
  lemma RowsAndFlags(x: Rtx, env: Env)
    requires Is2(x, SET)
    ensures Codes(Rows(QI, x.right)) == {} || FlagCodes(x.right) == {}
  {}

  // Where the codes found through the source stand among the moves.
  lemma SourceRange(m: Mode, x: Rtx, env: Env)
    requires Is2(x, SET)
    ensures forall k :: k in Codes(Rows(m, x.right)) ==> 40 <= k
    ensures forall k :: k in Special(m, x.right) ==> 40 <= k
  {
    hide Rows;
    hide Special;
    hide Codes;
    hide Matches;
    hide Extract;
    RowsMean(m, x, env);
    SpecialRange(m, x.right);
  }

  lemma SpecialRange(m: Mode, s: Rtx)
    ensures forall k :: k in Special(m, s) ==> 40 <= k
  {}

  lemma RowsBelow246(x: Rtx)
    requires Is2(x, SET)
    ensures forall k :: k in Codes(Rows(SI, x.right)) ==> k < 246
    ensures forall k :: k in Special(SI, x.right) ==> k < 246
  {}

  lemma RowsBelow248(x: Rtx)
    ensures forall k :: k in Codes(Rows(SF, x.right)) ==> k < 248
    ensures forall k :: k in Codes(Rows(DF, x.right)) ==> k < 248
    requires Is2(x, SET)
  {}

  // recog_5: the codes of an addition, a subtraction and a conjunction with no more to them.
  function PlainCode(c: Code2): int { if c == PLUS then 78 else if c == MINUS then 90 else 132 }

  lemma PlainRow(x: Rtx, env: Env)
    requires Is2(x, SET) && x.right.X2? && x.right.mode == SI && x.right.code2 in {PLUS, MINUS, AND}
    ensures var k, s := PlainCode(x.right.code2), x.right;
      && Codes(Rows(SI, s)) == {k}
      && (Matches(k, x, env) <==>
          env.accepts(General, x.left, SI) && env.accepts(General, s.left, SI) && env.accepts(General, s.right, SI))
      && Extract(k, x) == [x.left, s.left, s.right]
  {
    hide Matches;
    hide Extract;
    RowsMean(SI, x, env);
    var k := PlainCode(x.right.code2);
    assert Rows(SI, x.right) == [Row(k, SI, SI, Always)];
    assert RowMeaning(Row(k, SI, SI, Always), SI, x, env);
  }

  // recog_5, L295: double FIX for the FPA.
  lemma FixRowsBelow(y: Rtx)
    requires Is1(y, FIX) && y.mode == SI
    ensures forall k :: k in Codes(Rows(SI, y)) ==> k < 76
  {}

  lemma DoubleFixRow(k: int, m: Mode, x: Rtx, env: Env)
    requires Is2(x, SET) && Is1(x.right, FIX) && x.right.mode == SI
    requires (k == 76 && m == SF) || (k == 77 && m == DF)
    ensures var y := x.right.arg;
      && (Matches(k, x, env) <==> (
            && env.accepts(General, x.left, SI) && Is1(y, FIX) && y.mode == m
            && env.accepts(General, y.arg, m) && env.tFpa))
      && Extract(k, x) == [x.left, Xexp(y, 0)]
  {}

  // L311 and L364: a sign-extended halfword added or subtracted.
  lemma ExtendedAddRow(k: int, c: Code2, x: Rtx, env: Env)
    requires Is2(x, SET) && Is2(x.right, c) && x.right.mode == SI
    requires (k == 79 && c == PLUS) || (k == 91 && c == MINUS)
    ensures var y := x.right.right;
      && (Matches(k, x, env) <==> (
            && env.accepts(General, x.left, SI) && env.accepts(General, x.right.left, SI)
            && Is1(y, SIGN_EXTEND) && y.mode == SI && env.accepts(General, y.arg, HI)))
      && Extract(k, x) == [x.left, x.right.left, Xexp(y, 0)]
  {}

  lemma ExtendedAndText(k: int, m: Mode, n: int, x: Rtx, env: Env)
    requires Is2(x, SET) && Is2(x.right, AND)
    requires (k == 135 && m == HI && n == 0x1_0000) || (k == 136 && m == QI && n == 0x100)
    ensures Pattern(k) == P2(SET, VOID, Op(0, General, SI),
      P2(AND, SI, P1(ZERO_EXTEND, SI, Op(1, General, m)), Op(2, General, SI)))
    ensures DupsAgree(k, x) && Condition(k, x, env) == UnsignedBelow(x.right.right, n)
    ensures Extract(k, x) == [x.left, Xexp(x.right.left, 0), x.right.right]
  {}

  // L568: a zero-extended value masked by a constant that fits it.
  lemma ExtendedAndRow(k: int, m: Mode, n: int, x: Rtx, env: Env)
    requires Is2(x, SET) && Is2(x.right, AND) && x.right.mode == SI
    requires (k == 135 && m == HI && n == 0x1_0000) || (k == 136 && m == QI && n == 0x100)
    ensures var y, z := x.right.left, x.right.right;
      && (Matches(k, x, env) <==> (
            && env.accepts(General, x.left, SI) && Is1(y, ZERO_EXTEND) && y.mode == SI
            && env.accepts(General, y.arg, m) && env.accepts(General, z, SI) && UnsignedBelow(z, n)))
      && Extract(k, x) == [x.left, Xexp(y, 0), z]
  {
    hide Pattern;
    hide DupsAgree;
    hide Condition;
    hide Extract;
    hide UnsignedBelow;
    hide Shape;
    ExtendedAndText(k, m, n, x, env);
    var p := Pattern(k);
    ShapeStep(p, x, env);
    ShapeLeaf(p.a, x.left, env);
    ShapeStep(p.b, x.right, env);
    ShapeLeaf(p.b.b, x.right.right, env);
    ShapeStep(p.b.a, x.right.left, env);
    if x.right.left.X1? { ShapeLeaf(p.b.a.a, x.right.left.arg, env); }
  }

  // L666 and L671: the top byte of a memory word.
  lemma TopByteRow(k: int, c: Code2, x: Rtx, env: Env)
    requires Is2(x, SET) && Is2(x.right, c) && x.right.mode == SI
    requires (k == 161 && c == ASHIFTRT) || (k == 162 && c == LSHIFTRT)
    ensures Matches(k, x, env) <==>
        env.accepts(General, x.left, SI) && TopOf(c, x.right, env) && Rereadable(x.right.left)
    ensures Extract(k, x) == [x.left, x.right.left]
  {}

  // Field y of a place accepted in mode m, with width and position accepted by p.
  predicate Field(c: Code3, m: Mode, p: Predicate, y: Rtx, env: Env) {
    && Is3(y, c) && y.mode == SI && env.accepts(Nonimmediate, y.fst, m)
    && env.accepts(p, y.snd, SI) && env.accepts(p, y.thd, SI)
  }

  predicate FieldSwitch(env: Env) { env.t68020 && env.tBitfield }

  lemma GetFieldText(k: int, c: Code3, m: Mode, x: Rtx, env: Env)
    requires Is2(x, SET) && Is3(x.right, c)
    requires (k == 188 && c == SIGN_EXTRACT && m == QI) || (k == 189 && c == ZERO_EXTRACT && m == QI)
      || (k == 194 && c == SIGN_EXTRACT && m == SI) || (k == 195 && c == ZERO_EXTRACT && m == SI)
    ensures Pattern(k) == GetField(c, m, General)
    ensures DupsAgree(k, x) && Condition(k, x, env) == FieldSwitch(env)
    ensures Extract(k, x) == [x.left, x.right.fst, x.right.snd, x.right.thd]
  {}

  lemma GetFieldRow(k: int, c: Code3, m: Mode, x: Rtx, env: Env)
    requires Is2(x, SET) && Is3(x.right, c)
    requires (k == 188 && c == SIGN_EXTRACT && m == QI) || (k == 189 && c == ZERO_EXTRACT && m == QI)
      || (k == 194 && c == SIGN_EXTRACT && m == SI) || (k == 195 && c == ZERO_EXTRACT && m == SI)
    ensures Matches(k, x, env) <==>
        env.accepts(General, x.left, SI) && Field(c, m, General, x.right, env) && FieldSwitch(env)
    ensures Extract(k, x) == [x.left, x.right.fst, x.right.snd, x.right.thd]
  {
    hide Pattern;
    hide DupsAgree;
    hide Condition;
    hide Extract;
    GetFieldText(k, c, m, x, env);
    ShapeStep(GetField(c, m, General), x, env);
    ShapeStep(GetField(c, m, General).b, x.right, env);
  }

  // The place a loaded field is in has the mode of the group of its code.
  lemma GetModes(c: Code3, byte: int, unit: int, any: int, x: Rtx, env: Env)
    requires Sane(env) && Is2(x, SET) && Is3(x.right, c)
    requires (c == ZERO_EXTRACT && byte == 189 && unit == 186 && any == 195)
      || (c == SIGN_EXTRACT && byte == 188 && unit == 187 && any == 194)
    ensures Matches(unit, x, env) || Matches(any, x, env) ==> x.right.fst.mode == SI
    ensures Matches(byte, x, env) ==> x.right.fst.mode == QI
  {
    hide Matches;
    hide Extract;
    GetFieldRow(byte, c, QI, x, env);
    GetFieldRow(any, c, SI, x, env);
    GetUnitRow(unit, c, x, env);
  }

  lemma GetUnitRow(k: int, c: Code3, x: Rtx, env: Env)
    requires Is2(x, SET) && Is3(x.right, c)
    requires (k == 187 && c == SIGN_EXTRACT) || (k == 186 && c == ZERO_EXTRACT)
    ensures var y := x.right;
      && (Matches(k, x, env) <==> (
            && env.accepts(General, x.left, SI) && Field(c, SI, Immediate, y, env) && FieldSwitch(env)
            && WholeUnit(y.fst, y.snd, y.thd, env)))
      && Extract(k, x) == [x.left, y.fst, y.snd, y.thd]
  {}

  // --------------------------------------------------------------------------
  // Destination (zero_extract ...)

  lemma PutFieldShape(m: Mode, p: Predicate, source: Pat, x: Rtx, env: Env)
    requires Is2(x, SET)
    ensures Shape(PutField(m, p, source), x, env) <==>
        Field(ZERO_EXTRACT, m, p, x.left, env) && Shape(source, x.right, env)
  {
    ShapeStep(PutField(m, p, source), x, env);
    ShapeStep(PutField(m, p, source).a, x.left, env);
  }

  lemma PutFieldText(m: Mode, clear: int, set_: int, any: int, x: Rtx, env: Env)
    requires Is2(x, SET) && Is3(x.left, ZERO_EXTRACT)
    requires (m == QI && clear == 191 && set_ == 192 && any == 193)
      || (m == SI && clear == 196 && set_ == 197 && any == 198)
    ensures Pattern(clear) == PutField(m, General, Int(0)) && Pattern(set_) == PutField(m, General, Int(-1))
    ensures Pattern(any) == PutField(m, General, Op(3, General, SI))
    ensures forall k | k in {clear, set_, any} :: DupsAgree(k, x) && Condition(k, x, env) == FieldSwitch(env)
    ensures var d, s := x.left, x.right;
      && Extract(clear, x) == Extract(set_, x) == [d.fst, d.snd, d.thd]
      && Extract(any, x) == [d.fst, d.snd, d.thd, s]
  {}

  lemma PutFieldRows(m: Mode, clear: int, set_: int, any: int, x: Rtx, env: Env)
    requires Is2(x, SET) && Is3(x.left, ZERO_EXTRACT)
    requires (m == QI && clear == 191 && set_ == 192 && any == 193)
      || (m == SI && clear == 196 && set_ == 197 && any == 198)
    ensures var d, s := x.left, x.right; var f := Field(ZERO_EXTRACT, m, General, d, env) && FieldSwitch(env);
      && (Matches(clear, x, env) <==> f && IsInt(s, 0))
      && (Matches(set_, x, env) <==> f && IsInt(s, -1))
      && (Matches(any, x, env) <==> f && env.accepts(General, s, SI))
      && Extract(clear, x) == Extract(set_, x) == [d.fst, d.snd, d.thd]
      && Extract(any, x) == [d.fst, d.snd, d.thd, s]
  {
    hide Pattern;
    hide DupsAgree;
    hide Condition;
    hide Extract;
    hide PutField;
    hide Field;
    PutFieldText(m, clear, set_, any, x, env);
    PutFieldShape(m, General, Int(0), x, env);
    PutFieldShape(m, General, Int(-1), x, env);
    PutFieldShape(m, General, Op(3, General, SI), x, env);
  }

  lemma PutUnitRow(x: Rtx, env: Env)
    requires Is2(x, SET) && Is3(x.left, ZERO_EXTRACT)
    ensures var d, s := x.left, x.right;
      && (Matches(185, x, env) <==> (
            && Field(ZERO_EXTRACT, SI, Immediate, d, env) && FieldSwitch(env)
            && env.accepts(General, s, SI) && WholeUnit(d.fst, d.snd, d.thd, env)))
      && Extract(185, x) == [d.fst, d.snd, d.thd, s]
  {}

  predicate SameField(y: Rtx, d: Rtx)
    requires d.X3?
  {
    && Is3(y, ZERO_EXTRACT) && y.mode == SI
    && RtxEqual(y.fst, d.fst) && RtxEqual(y.snd, d.snd) && RtxEqual(y.thd, d.thd)
  }

  lemma ComplementRow(x: Rtx, env: Env)
    requires Is2(x, SET) && Is3(x.left, ZERO_EXTRACT)
    ensures var d, s := x.left, x.right;
      && (Matches(190, x, env) <==> (
            && Field(ZERO_EXTRACT, QI, General, d, env) && FieldSwitch(env)
            && Is2(s, XOR) && s.mode == SI && SameField(s.left, d)
            && env.accepts(Immediate, s.right, VOID) && ComplementsField(s.right, d.snd, env)))
      && Extract(190, x) == [d.fst, d.snd, d.thd, Xexp(s, 1)]
  {
    hide RtxEqual;
    hide Shape;
    ComplementShape(x, env);
  }

  lemma ComplementShape(x: Rtx, env: Env)
    requires Is2(x, SET) && Is3(x.left, ZERO_EXTRACT)
    ensures var s := x.right;
      Shape(Pattern(190), x, env) <==> (
        && Field(ZERO_EXTRACT, QI, General, x.left, env) && Is2(s, XOR) && s.mode == SI
        && Is3(s.left, ZERO_EXTRACT) && s.left.mode == SI && env.accepts(Immediate, s.right, VOID))
  {}

  // The place a stored field is in has the mode of the group of its code.
  lemma FieldModes(x: Rtx, env: Env)
    requires Sane(env) && Is2(x, SET) && Is3(x.left, ZERO_EXTRACT)
    ensures forall k :: k in FIELD_CODES && Matches(k, x, env) ==> x.left.mode == SI
    ensures forall k :: k in {190, 191, 192, 193} && Matches(k, x, env) ==> x.left.fst.mode == QI
    ensures forall k :: k in {185, 196, 197, 198} && Matches(k, x, env) ==> x.left.fst.mode == SI
  {
    hide Matches;
    hide Extract;
    PutFieldRows(QI, 191, 192, 193, x, env);
    PutFieldRows(SI, 196, 197, 198, x, env);
    PutUnitRow(x, env);
    ComplementRow(x, env);
  }

  // --------------------------------------------------------------------------
  // Multiply-add for the FPA

  predicate Inner(c: Code2, m: Mode, p: Predicate, y: Rtx, env: Env) {
    Is2(y, c) && y.mode == m && env.accepts(p, y.left, m) && env.accepts(General, y.right, m)
  }

  lemma FuseLeftShape(m: Mode, c: Code2, inner: Code2, p: Predicate, x: Rtx, env: Env)
    requires Is2(x, SET) && Is2(x.right, c) && x.right.mode == m && m != VOID
    ensures Shape(FuseLeft(m, c, inner, p), x, env) <==> (
        && env.accepts(Register, x.left, m) && Inner(inner, m, p, x.right.left, env)
        && env.accepts(General, x.right.right, m))
  {
    var q := FuseLeft(m, c, inner, p);
    ShapeStep(q, x, env);
    ShapeStep(q.b, x.right, env);
    ShapeStep(q.b.a, x.right.left, env);
  }

  lemma FuseRightShape(m: Mode, c: Code2, inner: Code2, p: Predicate, x: Rtx, env: Env)
    requires Is2(x, SET) && Is2(x.right, c) && x.right.mode == m && m != VOID
    ensures Shape(FuseRight(m, c, inner, p), x, env) <==> (
        && env.accepts(Register, x.left, m) && env.accepts(General, x.right.left, m)
        && Inner(inner, m, p, x.right.right, env))
  {
    var q := FuseRight(m, c, inner, p);
    ShapeStep(q, x, env);
    ShapeStep(q.b, x.right, env);
    ShapeStep(q.b.b, x.right.right, env);
  }

  // The code of a left-hand and of a right-hand combination of c with inner.
  function LeftCode(m: Mode, c: Code2, inner: Code2): int {
    match (c, inner)
    case (PLUS, MULT) => if m == DF then 248 else 250
    case (MINUS, MULT) => if m == DF then 254 else 255
    case (MULT, PLUS) => if m == DF then 256 else 258
    case (MULT, MINUS) => if m == DF then 260 else 262
    case _ => -1
  }

  function RightCode(m: Mode, c: Code2, inner: Code2): int {
    match (c, inner)
    case (PLUS, MULT) => if m == DF then 249 else 251
    case (MINUS, MULT) => if m == DF then 252 else 253
    case (MULT, PLUS) => if m == DF then 257 else 259
    case (MULT, MINUS) => if m == DF then 261 else 263
    case _ => -1
  }

  function InnerPredicate(c: Code2): Predicate { if c == PLUS then General else Register }

  lemma LeftPattern(m: Mode, c: Code2, inner: Code2)
    requires LeftCode(m, c, inner) != -1 && (m == SF || m == DF)
    ensures 248 <= LeftCode(m, c, inner) < 264
    ensures Pattern(LeftCode(m, c, inner)) == FuseLeft(m, c, inner, InnerPredicate(c))
  {}

  lemma LeftText(m: Mode, c: Code2, inner: Code2, x: Rtx, env: Env)
    requires Is2(x, SET) && Is2(x.right, c) && LeftCode(m, c, inner) != -1 && (m == SF || m == DF)
    ensures var k, s := LeftCode(m, c, inner), x.right;
      && 248 <= k < 264
      && Pattern(k) == FuseLeft(m, c, inner, InnerPredicate(c)) && DupsAgree(k, x) && Condition(k, x, env) == env.tFpa
      && Extract(k, x) == [x.left, Xexp(s.left, 0), Xexp(s.left, 1), s.right]
  {
    hide Pattern;
    LeftPattern(m, c, inner);
  }

  lemma RightPattern(m: Mode, c: Code2, inner: Code2)
    requires RightCode(m, c, inner) != -1 && (m == SF || m == DF)
    ensures 248 <= RightCode(m, c, inner) < 264
    ensures Pattern(RightCode(m, c, inner)) == FuseRight(m, c, inner, InnerPredicate(c))
  {}

  lemma RightText(m: Mode, c: Code2, inner: Code2, x: Rtx, env: Env)
    requires Is2(x, SET) && Is2(x.right, c) && RightCode(m, c, inner) != -1 && (m == SF || m == DF)
    ensures var k, s := RightCode(m, c, inner), x.right;
      && 248 <= k < 264
      && Pattern(k) == FuseRight(m, c, inner, InnerPredicate(c)) && DupsAgree(k, x) && Condition(k, x, env) == env.tFpa
      && Extract(k, x) == [x.left, s.left, Xexp(s.right, 0), Xexp(s.right, 1)]
  {
    hide Pattern;
    RightPattern(m, c, inner);
  }

  lemma LeftRow(m: Mode, c: Code2, inner: Code2, x: Rtx, env: Env)
    requires Is2(x, SET) && Is2(x.right, c) && x.right.mode == m && LeftCode(m, c, inner) != -1 && (m == SF || m == DF)
    ensures var k, s := LeftCode(m, c, inner), x.right;
      && 248 <= k < 264
      && (Matches(k, x, env) <==> (
            && env.accepts(Register, x.left, m) && Inner(inner, m, InnerPredicate(c), s.left, env)
            && env.accepts(General, s.right, m) && env.tFpa))
      && Extract(k, x) == [x.left, Xexp(s.left, 0), Xexp(s.left, 1), s.right]
  {
    hide LeftCode;
    hide Pattern;
    hide Extract;
    LeftText(m, c, inner, x, env);
    FuseLeftShape(m, c, inner, InnerPredicate(c), x, env);
  }

  lemma RightRow(m: Mode, c: Code2, inner: Code2, x: Rtx, env: Env)
    requires Is2(x, SET) && Is2(x.right, c) && x.right.mode == m && RightCode(m, c, inner) != -1 && (m == SF || m == DF)
    ensures var k, s := RightCode(m, c, inner), x.right;
      && 248 <= k < 264
      && (Matches(k, x, env) <==> (
            && env.accepts(Register, x.left, m) && env.accepts(General, s.left, m)
            && Inner(inner, m, InnerPredicate(c), s.right, env) && env.tFpa))
      && Extract(k, x) == [x.left, s.left, Xexp(s.right, 0), Xexp(s.right, 1)]
  {
    hide RightCode;
    hide Pattern;
    hide Extract;
    RightText(m, c, inner, x, env);
    FuseRightShape(m, c, inner, InnerPredicate(c), x, env);
  }

  lemma MultiplyAddRange(m: Mode, x: Rtx)
    requires Is2(x, SET) && (m == SF || m == DF)
    ensures forall k :: k in Special(m, x.right) ==> 248 <= k
  {}

  lemma MultiplyAddNeedsRegister(m: Mode, x: Rtx, env: Env)
    requires Is2(x, SET) && (m == SF || m == DF)
    ensures forall k :: k in Special(m, x.right) && Matches(k, x, env) ==> env.accepts(Register, x.left, m)
  {
    hide Matches;
    hide Extract;
    if Special(m, x.right) != {} {
      var c := x.right.code2;
      if c == MULT {
        LeftRow(m, c, PLUS, x, env);
        LeftRow(m, c, MINUS, x, env);
        RightRow(m, c, PLUS, x, env);
        RightRow(m, c, MINUS, x, env);
      } else {
        LeftRow(m, c, MULT, x, env);
        RightRow(m, c, MULT, x, env);
      }
    }
  }

  // --------------------------------------------------------------------------
  // Pairs

  const PARALLEL_CODES: set<int> := {6, 9, 15, 18, 130, 131, 238, 240, 241, 242}

  // The shape every PARALLEL the recogniser looks into has.
  predicate SetPair(x: Rtx) { x.Parallel? && |x.elems| == 2 && Is2(x.elems[0], SET) }

  predicate SetOrNothing(p: Pat) { p.Never? || (p.P2? && p.c2 == SET) }

  lemma SetsBelow130(k: int)
    requires 19 <= k < 130
    ensures SetOrNothing(Pattern(k))
  {}

  lemma SetsAbove131(k: int)
    requires 132 <= k < 238
    ensures SetOrNothing(Pattern(k))
  {}

  lemma SetsAtTheEnds(k: int)
    requires k < 19 || 130 <= k < 132 || 238 <= k
    ensures SetOrNothing(Pattern(k)) || k in PARALLEL_CODES || k == 243 || k == 245
  {}

  // Every template but those of codes 243 and 245 is a SET or a pair.
  lemma RootCode(k: int, x: Rtx, env: Env)
    requires Shape(Pattern(k), x, env)
    ensures Is2(x, SET) || (k in PARALLEL_CODES && SetPair(x)) || (k == 243 && Is2(x, CALL))
      || (k == 245 && IsInt(x, 0))
    ensures SetPair(x) ==> k in PARALLEL_CODES
  {
    if 19 <= k < 130 { SetsBelow130(k); }
    else if 132 <= k < 238 { SetsAbove131(k); }
    else { SetsAtTheEnds(k); }
    ShapeStep(Pattern(k), x, env);
    if k in PARALLEL_CODES { PairHead(k, x, env); }
    if k == 243 || k == 245 { hide SetOrNothing; }
    else { hide Pattern; }
  }

  lemma PairHead(k: int, x: Rtx, env: Env)
    requires k in PARALLEL_CODES && Shape(Pattern(k), x, env)
    ensures SetPair(x)
  {
    var p := Pattern(k);
    ShapeStep(p, x, env);
    assert p.a.P2? && p.a.c2 == SET;
    ShapeStep(p.a, x.elems[0], env);
  }

  lemma OtherRoots(x: Rtx, env: Env)
    ensures Is2(x, SET) || SetPair(x) || Is2(x, CALL) || IsInt(x, 0) || forall k :: !Matches(k, x, env)
    ensures Is2(x, CALL) ==> forall k :: Matches(k, x, env) ==> k == 243
    ensures IsInt(x, 0) ==> forall k :: Matches(k, x, env) <==> k == 245
    ensures Extract(245, x) == []
  {
    forall k | Matches(k, x, env)
      ensures Is2(x, SET) || SetPair(x) || (Is2(x, CALL) && k == 243) || (IsInt(x, 0) && k == 245)
    {
      RootCode(k, x, env);
    }
  }

  lemma PairRoots(x: Rtx, env: Env)
    requires SetPair(x)
    ensures forall k :: Matches(k, x, env) ==> k in PARALLEL_CODES
  {
    hide Pattern;
    hide Condition;
    forall k | Matches(k, x, env) ensures k in PARALLEL_CODES { RootCode(k, x, env); }
  }

  lemma CallOnlyRow(x: Rtx, env: Env)
    requires Is2(x, CALL)
    ensures Matches(243, x, env) <==> env.accepts(General, x.left, QI) && env.accepts(General, x.right, SI)
    ensures Extract(243, x) == [x.left, x.right]
  {}

  // The second element of the pair clobbers an SImode scratch operand.
  predicate Scratch(e: Rtx, env: Env) { Is1(e, CLOBBER) && env.accepts(General, e.arg, SI) && env.tFpa }

  lemma FloatTestRow(k: int, m: Mode, x: Rtx, env: Env)
    requires SetPair(x) && x.elems[0].left == CC0_RTX
    requires (k == 6 && m == SF) || (k == 9 && m == DF)
    ensures var s, e := x.elems[0].right, x.elems[1];
      && (Matches(k, x, env) <==> env.accepts(General, s, m) && Scratch(e, env))
      && Extract(k, x) == [s, Xexp(e, 0)]
  {
    TestShape(m, x.elems[0], env);
    WithClobberShape(Test(m), Op(1, General, SI), x, env);
  }

  lemma FloatCompareRow(k: int, m: Mode, x: Rtx, env: Env)
    requires SetPair(x) && x.elems[0].left == CC0_RTX && Is2(x.elems[0].right, COMPARE)
    requires (k == 15 && m == DF) || (k == 18 && m == SF)
    ensures var s, e := x.elems[0].right, x.elems[1];
      && (Matches(k, x, env) <==>
            env.accepts(General, s.left, m) && env.accepts(General, s.right, m) && Scratch(e, env))
      && Extract(k, x) == [s.left, s.right, Xexp(e, 0)]
  {
    TestBinaryShape(COMPARE, VOID, m, x.elems[0], env);
    WithClobberShape(TestBinary(COMPARE, VOID, m), Op(2, General, SI), x, env);
  }

  // A flag-setting code 6, 9, 15 or 18 wants the destination (cc0), and 15 and 18 a COMPARE.
  lemma FlagPair(k: int, x: Rtx, env: Env)
    requires SetPair(x) && k in {6, 9, 15, 18} && Matches(k, x, env)
    ensures x.elems[0].left == CC0_RTX && (k in {15, 18} ==> Is2(x.elems[0].right, COMPARE))
  {
    ShapeStep(Pattern(k), x, env);
    TestShape(SF, x.elems[0], env);
    TestShape(DF, x.elems[0], env);
    TestBinaryShape(COMPARE, VOID, DF, x.elems[0], env);
    TestBinaryShape(COMPARE, VOID, SF, x.elems[0], env);
  }

  lemma TableJumpRow(x: Rtx, env: Env)
    requires Sane(env) && SetPair(x)
    ensures var h, e := x.elems[0], x.elems[1];
      && (Matches(238, x, env) <==> (
            && h.left == PC_RTX && Is2(h.right, PLUS) && h.right.mode == SI && h.right.left == PC_RTX
            && env.accepts(General, h.right.right, HI) && Is1(e, USE) && Is1(e.arg, LABEL_REF)))
      && Extract(238, x) == [Xexp(h.right, 1), Xexp(Xexp(e, 0), 0)]
  {
    hide Shape;
    TableJumpShape(x, env);
  }

  lemma TableJumpText()
    ensures Pattern(238) ==
        PPar(P2(SET, VOID, Lit(PC_RTX), P2(PLUS, SI, Lit(PC_RTX), Op(0, General, HI))), P1(USE, VOID, Label(1)))
  {}

  lemma TableJumpShape(x: Rtx, env: Env)
    requires Sane(env) && SetPair(x)
    ensures var h, e := x.elems[0], x.elems[1];
      Shape(Pattern(238), x, env) <==> (
        && h.left == PC_RTX && Is2(h.right, PLUS) && h.right.mode == SI && h.right.left == PC_RTX
        && env.accepts(General, h.right.right, HI) && Is1(e, USE) && Is1(e.arg, LABEL_REF))
  {
    hide Pattern;
    TableJumpText();
    var p := PPar(P2(SET, VOID, Lit(PC_RTX), P2(PLUS, SI, Lit(PC_RTX), Op(0, General, HI))), P1(USE, VOID, Label(1)));
    hide Label;
    ShapePar(p.a, p.b, x, env);
    TableJumpHeadShape(x.elems[0], env);
    ShapeStep(p.b, x.elems[1], env);
    if x.elems[1].X1? { LabelShape(1, x.elems[1].arg, env); }
  }

  lemma TableJumpHeadShape(h: Rtx, env: Env)
    ensures Shape(P2(SET, VOID, Lit(PC_RTX), P2(PLUS, SI, Lit(PC_RTX), Op(0, General, HI))), h, env) <==> (
        && Is2(h, SET) && h.left == PC_RTX && Is2(h.right, PLUS) && h.right.mode == SI && h.right.left == PC_RTX
        && env.accepts(General, h.right.right, HI))
  {
    var p := P2(SET, VOID, Lit(PC_RTX), P2(PLUS, SI, Lit(PC_RTX), Op(0, General, HI)));
    ShapeStep(p, h, env);
    if h.X2? { ShapeStep(p.b, h.right, env); }
  }

  // (plus o (const_int -1)) in mode m, with o a general operand.
  predicate DecrementOf(y: Rtx, m: Mode, env: Env) {
    Is2(y, PLUS) && y.mode == m && env.accepts(General, y.left, m) && IsInt(y.right, -1)
  }

  // The decremented counter is not -1.
  predicate CounterLeft(c: Rtx, m: Mode, env: Env) {
    && Is2(c, NE) && Is2(c.left, COMPARE) && DecrementOf(c.left.left, m, env)
    && IsInt(c.left.right, -1) && IsInt(c.right, 0)
  }

  // The decremented counter is nonnegative.
  predicate CounterNonnegative(c: Rtx, env: Env) {
    Is2(c, GE) && DecrementOf(c.left, SI, env) && IsInt(c.right, 0)
  }

  // The jump of a decrement-and-branch.
  predicate CountedJump(h: Rtx) {
    Is2(h, SET) && h.left == PC_RTX && Is3(h.right, IF_THEN_ELSE) && Is1(h.right.snd, LABEL_REF)
    && h.right.thd == PC_RTX
  }

  // The decrement of the counter o that goes with it.
  predicate CountDown(e: Rtx, o: Rtx, m: Mode) {
    && Is2(e, SET) && RtxEqual(e.left, o) && Is2(e.right, PLUS) && e.right.mode == m
    && RtxEqual(e.right.left, o) && IsInt(e.right.right, -1)
  }

  lemma CountedJumpShape(condition: Pat, h: Rtx, env: Env)
    requires Sane(env)
    ensures Shape(P2(SET, VOID, Lit(PC_RTX), P3(IF_THEN_ELSE, VOID, condition, Label(1), Lit(PC_RTX))), h, env)
      <==> CountedJump(h) && Shape(condition, h.right.fst, env)
  {
    hide Label;
    var p := P2(SET, VOID, Lit(PC_RTX), P3(IF_THEN_ELSE, VOID, condition, Label(1), Lit(PC_RTX)));
    ShapeStep(p, h, env);
    if h.X2? { ShapeStep(p.b, h.right, env); }
    if h.X2? && h.right.X3? { LabelShape(1, h.right.snd, env); }
  }

  lemma CountDownShape(m: Mode, e: Rtx, env: Env)
    requires m != VOID
    ensures Shape(P2(SET, VOID, Dup(0), P2(PLUS, m, Dup(0), Int(-1))), e, env)
      <==> Is2(e, SET) && Is2(e.right, PLUS) && e.right.mode == m && IsInt(e.right.right, -1)
  {
    var p := P2(SET, VOID, Dup(0), P2(PLUS, m, Dup(0), Int(-1)));
    ShapeStep(p, e, env);
    if e.X2? { ShapeStep(p.b, e.right, env); }
  }

  lemma DecrementBranchShape(m: Mode, condition: Pat, x: Rtx, env: Env)
    requires Sane(env) && SetPair(x) && m != VOID
    ensures var h, e := x.elems[0], x.elems[1];
      Shape(DecrementBranch(m, condition), x, env) <==> (
        && CountedJump(h) && Shape(condition, h.right.fst, env)
        && Is2(e, SET) && Is2(e.right, PLUS) && e.right.mode == m && IsInt(e.right.right, -1))
  {
    hide CountedJump;
    var p := DecrementBranch(m, condition);
    ShapePar(p.a, p.b, x, env);
    CountedJumpShape(condition, x.elems[0], env);
    CountDownShape(m, x.elems[1], env);
  }

  lemma DecrementedShape(m: Mode, y: Rtx, env: Env)
    requires m != VOID
    ensures Shape(Decremented(m), y, env) <==> DecrementOf(y, m, env)
  {
    ShapeStep(Decremented(m), y, env);
  }

  lemma NotMinusOneShape(m: Mode, c: Rtx, env: Env)
    requires m != VOID
    ensures Shape(NotMinusOne(m), c, env) <==> CounterLeft(c, m, env)
  {
    hide Decremented;
    hide DecrementOf;
    var p := NotMinusOne(m);
    ShapeStep(p, c, env);
    if c.X2? {
      ShapeStep(p.a, c.left, env);
      if c.left.X2? { DecrementedShape(m, c.left.left, env); }
    }
  }

  lemma NonnegativeShape(c: Rtx, env: Env)
    ensures Shape(P2(GE, VOID, Decremented(SI), Int(0)), c, env) <==> CounterNonnegative(c, env)
  {}

  // Where the counter stands in a jump on it.
  lemma CounterOperand(h: Rtx, c: Rtx, m: Mode, env: Env)
    ensures CountedJump(h) ==>
        h.right.X3? && h.right.snd.X1? && Xexp(h.right, 0) == h.right.fst
        && Xexp(Xexp(h.right, 1), 0) == h.right.snd.arg
    ensures CounterLeft(c, m, env) ==>
        c.X2? && c.left.X2? && c.left.left.X2? && Xexp(Xexp(Xexp(c, 0), 0), 0) == c.left.left.left
  {}

  lemma CountRow(k: int, m: Mode, x: Rtx, env: Env)
    requires Sane(env) && SetPair(x) && ((k == 240 && m == HI) || (k == 241 && m == SI))
    ensures var h, e := x.elems[0], x.elems[1]; var c := Xexp(h.right, 0);
      && (Matches(k, x, env) <==>
            CountedJump(h) && CounterLeft(c, m, env) && CountDown(e, c.left.left.left, m))
      && Extract(k, x) == [Xexp(Xexp(Xexp(c, 0), 0), 0), Xexp(Xexp(h.right, 1), 0)]
  {
    hide RtxEqual;
    hide Shape;
    hide Pattern;
    hide Condition;
    hide DupsAgree;
    hide Extract;
    hide CounterLeft;
    var h, c := x.elems[0], Xexp(x.elems[0].right, 0);
    CountText(k, m, x, env);
    CountShape(k, m, x, env);
    CounterOperand(h, c, m, env);
  }

  lemma CountText(k: int, m: Mode, x: Rtx, env: Env)
    requires SetPair(x) && ((k == 240 && m == HI) || (k == 241 && m == SI))
    ensures Pattern(k) == DecrementBranch(m, NotMinusOne(m)) && Condition(k, x, env)
    ensures var h, e := x.elems[0], x.elems[1]; var o := Xexp(Xexp(Xexp(Xexp(h.right, 0), 0), 0), 0);
      && Extract(k, x) == [o, Xexp(Xexp(h.right, 1), 0)]
      && (DupsAgree(k, x) <==> RtxEqual(Xexp(e, 0), o) && RtxEqual(Xexp(Xexp(e, 1), 0), o))
  {
    hide RtxEqual;
  }

  lemma CountShape(k: int, m: Mode, x: Rtx, env: Env)
    requires Sane(env) && SetPair(x) && ((k == 240 && m == HI) || (k == 241 && m == SI))
    ensures var h, e := x.elems[0], x.elems[1];
      Shape(Pattern(k), x, env) <==> (
        && CountedJump(h) && CounterLeft(h.right.fst, m, env)
        && Is2(e, SET) && Is2(e.right, PLUS) && e.right.mode == m && IsInt(e.right.right, -1))
  {
    hide Pattern;
    hide NotMinusOne;
    hide DecrementBranch;
    hide CountedJump;
    hide CounterLeft;
    CountText(k, m, x, env);
    var h := x.elems[0];
    CounterOperand(h, Xexp(h.right, 0), m, env);
    DecrementBranchShape(m, NotMinusOne(m), x, env);
    NotMinusOneShape(m, Xexp(h.right, 0), env);
  }

  lemma CountNonnegativeRow(x: Rtx, env: Env)
    requires Sane(env) && SetPair(x)
    ensures var h, e := x.elems[0], x.elems[1]; var c := Xexp(h.right, 0);
      && (Matches(242, x, env) <==>
            CountedJump(h) && CounterNonnegative(c, env) && CountDown(e, c.left.left, SI) && env.nonneg)
      && Extract(242, x) == [Xexp(Xexp(c, 0), 0), Xexp(Xexp(h.right, 1), 0)]
  {
    hide RtxEqual;
    hide Decremented;
    hide DecrementBranch;
    DecrementBranchShape(SI, P2(GE, VOID, Decremented(SI), Int(0)), x, env);
    NonnegativeShape(Xexp(x.elems[0].right, 0), env);
  }

  lemma DivModRow(k: int, c: Code2, q: Code2, x: Rtx, env: Env)
    requires SetPair(x)
    requires (k == 130 && c == DIV && q == MOD) || (k == 131 && c == UDIV && q == UMOD)
    ensures var d, s, e := x.elems[0].left, x.elems[0].right, x.elems[1];
      && (Matches(k, x, env) <==> (
            && env.accepts(General, d, SI) && Is2(s, c) && s.mode == SI
            && env.accepts(General, s.left, SI) && env.accepts(General, s.right, SI)
            && Is2(e, SET) && env.accepts(General, e.left, SI) && Is2(e.right, q) && e.right.mode == SI
            && RtxEqual(e.right.left, s.left) && RtxEqual(e.right.right, s.right) && env.t68020))
      && Extract(k, x) == [d, Xexp(s, 0), Xexp(s, 1), Xexp(e, 0)]
  {
    hide RtxEqual;
    BinaryShape(SI, c, SI, SI, SI, x.elems[0], env);
    DivModShape(c, q, x, env);
  }

  // The codes of a pair, by its destination.
  function PairCodes(x: Rtx): set<int>
    requires SetPair(x)
  {
    var h := x.elems[0];
    if h.left == CC0_RTX then if Is2(h.right, COMPARE) then {6, 9, 15, 18} else {6, 9}
    else if h.left == PC_RTX then PcPairCodes(h.right)
    else {130, 131}
  }

  function PcPairCodes(s: Rtx): set<int> {
    match s
    case X2(PLUS, SI, _, _) => {238}
    case X3(IF_THEN_ELSE, _, X2(NE, _, _, _), _, _) => {240, 241}
    case X3(IF_THEN_ELSE, _, X2(GE, _, _, _), _, _) => {242}
    case _ => {}
  }

  lemma PairCode(k: int, x: Rtx, env: Env)
    requires Sane(env) && SetPair(x) && k in PARALLEL_CODES && Matches(k, x, env)
    ensures k in PairCodes(x)
  {
    hide Pattern;
    hide Condition;
    hide Matches;
    if k in {6, 9, 15, 18} {
      FlagPair(k, x, env);
    } else if k == 130 || k == 131 {
      DivModCodes(x, env);
    } else {
      CountCodes(x, env);
    }
  }

  lemma PairIndex(x: Rtx, env: Env)
    requires Sane(env) && SetPair(x)
    ensures forall k :: Matches(k, x, env) ==> k in PairCodes(x)
  {
    hide Matches;
    hide PairCodes;
    PairRoots(x, env);
    forall k | Matches(k, x, env) ensures k in PairCodes(x) { PairCode(k, x, env); }
  }

  predicate CountHead(x: Rtx, c: Code2) {
    SetPair(x) && x.elems[0].left == PC_RTX && Is3(x.elems[0].right, IF_THEN_ELSE) && Is2(x.elems[0].right.fst, c)
  }

  predicate TableJumpHead(x: Rtx) {
    SetPair(x) && x.elems[0].left == PC_RTX && Is2(x.elems[0].right, PLUS) && x.elems[0].right.mode == SI
  }

  lemma CountCodes(x: Rtx, env: Env)
    requires Sane(env) && SetPair(x)
    ensures forall k :: k in {240, 241} && Matches(k, x, env) ==> CountHead(x, NE)
    ensures Matches(242, x, env) ==> CountHead(x, GE)
    ensures Matches(238, x, env) ==> TableJumpHead(x)
    ensures !(Matches(240, x, env) && Matches(241, x, env))
  {
    hide Matches;
    hide Extract;
    hide CountDown;
    CountRow(240, HI, x, env);
    CountRow(241, SI, x, env);
    CountNonnegativeRow(x, env);
    TableJumpRow(x, env);
  }

  lemma DivModCodes(x: Rtx, env: Env)
    requires Sane(env) && SetPair(x)
    ensures forall k :: k in {130, 131} && Matches(k, x, env) ==>
        x.elems[0].left != CC0_RTX && x.elems[0].left != PC_RTX
        && env.accepts(General, x.elems[0].left, SI) && x.elems[0].right.mode == SI
    ensures Matches(130, x, env) ==> Is2(x.elems[0].right, DIV)
    ensures Matches(131, x, env) ==> Is2(x.elems[0].right, UDIV)
  {
    hide Matches;
    hide Extract;
    hide RtxEqual;
    DivModRow(130, DIV, MOD, x, env);
    DivModRow(131, UDIV, UMOD, x, env);
  }

  // --------------------------------------------------------------------------
  // Roots

  // A part written that is a constant without a mode.
  predicate StrictConstant(x: Rtx) { Is2(x, SET) && Is1(x.left, STRICT_LOW_PART) && VoidConstant(x.left.arg) }

  // A SET whose destination, or the part of a register it names, is such a constant.
  predicate ConstantDestination(x: Rtx) { Is2(x, SET) && (VoidConstant(x.left) || StrictConstant(x)) }

  // The codes tried before a call, and after it.
  function EarlyCodes(d: Rtx, s: Rtx): set<int> {
    if d == CC0_RTX then {2, 3, 4, 7, 10} + CcSpecial(s)
    else if d == PC_RTX then PcCodes(s)
    else if Is1(d, STRICT_LOW_PART) then {33, 35} + StrictSpecial(s)
    else {}
  }

  function LateCodes(d: Rtx, s: Rtx): set<int> {
    if OperandForm(d) then OperandCodes(d.mode, s)
    else if Is3(d, ZERO_EXTRACT) then FIELD_CODES
    else {}
  }

  lemma SetCandidates(x: Rtx, env: Env)
    requires Sane(env) && Is2(x, SET) && !VoidConstant(x.left)
    ensures var d, s := x.left, x.right; forall k :: Matches(k, x, env) ==>
        (k == 244 && Is2(s, CALL)) || k in EarlyCodes(d, s) || k in LateCodes(d, s)
  {
    hide Matches;
    hide CcSpecial;
    hide PcCodes;
    hide StrictSpecial;
    hide Rows;
    hide Special;
    hide Moves;
    SetIndexAll(x, env);
  }

  // A constant without a mode is no destination but that of a call.
  lemma NoCandidates(d: Rtx, s: Rtx)
    requires VoidConstant(d)
    ensures EarlyCodes(d, s) == {} && LateCodes(d, s) == {}
  {}

  lemma EarlyRange(d: Rtx, s: Rtx)
    ensures forall k :: k in EarlyCodes(d, s) ==> k < 244
    ensures EarlyCodes(d, s) != {} ==> LateCodes(d, s) == {}
  {}

  // A call is not an operand, an address or a computed source.
  lemma CallIsNoSource(x: Rtx, env: Env)
    requires Sane(env) && Is2(x, SET) && Is2(x.right, CALL)
    ensures forall k :: k in LateCodes(x.left, x.right) ==> !Matches(k, x, env)
  {
    hide Matches;
    hide OperandCodes;
    if OperandForm(x.left) { CallIsNoMove(x, env); }
    else if Is3(x.left, ZERO_EXTRACT) { CallIsNoField(x, env); }
  }

  lemma CallIsNoMove(x: Rtx, env: Env)
    requires Sane(env) && Is2(x, SET) && Is2(x.right, CALL)
    ensures forall k :: k in OperandCodes(x.left.mode, x.right) ==> !Matches(k, x, env)
  {
    hide Matches;
    hide Extract;
    hide Rows;
    hide Special;
    SmallMoveRows(x, env);
    WideMoveRows(x, env);
    SiMoveRows(x, env);
    CallHasNoRows(x.left.mode, x.right);
  }

  lemma CallIsNoField(x: Rtx, env: Env)
    requires Sane(env) && Is2(x, SET) && Is2(x.right, CALL) && Is3(x.left, ZERO_EXTRACT)
    ensures forall k :: k in FIELD_CODES ==> !Matches(k, x, env)
  {
    hide Matches;
    hide Extract;
    hide Field;
    PutFieldRows(QI, 191, 192, 193, x, env);
    PutFieldRows(SI, 196, 197, 198, x, env);
    PutUnitRow(x, env);
    ComplementRow(x, env);
  }

  lemma CallHasNoRows(m: Mode, s: Rtx)
    requires Is2(s, CALL)
    ensures Codes(Rows(m, s)) == {} && Special(m, s) == {}
  {}

  // Code 244 alone takes a call, and stands last among the templates of a SET that
  // are not bound to a register or an SImode operand.
  lemma OnlyCall(x: Rtx, env: Env)
    requires Sane(env) && Is2(x, SET)
    ensures Matches(244, x, env) ==> forall k :: k != 244 ==> !Matches(k, x, env)
  {
    hide Condition;
    hide DupsAgree;
    CallRow(x, env);
    forall k | Matches(k, x, env) ensures Matches(244, x, env) ==> k == 244 {
      if Matches(244, x, env) { CallSource(k, x, env); }
    }
  }

  // The source of p is no call.
  predicate NoCall(p: Pat) {
    match p
    case P2(SET, _, _, b) =>
      || b.P1? || b.P3? || b.PSub? || b.Int? || (b.P2? && b.c2 != CALL)
      || (b.Op? && b.m != VOID && (b.pred == General || b.pred == Address))
    case _ => !p.Op? && !p.Dup? && !p.Lit?
  }

  lemma NoCallBelow102(k: int)
    requires k < 102
    ensures NoCall(Pattern(k))
  {}

  lemma NoCallFrom102(k: int)
    requires 102 <= k < 185
    ensures NoCall(Pattern(k))
  {}

  lemma NoCallAbove185(k: int)
    requires 185 <= k && k != 244
    ensures NoCall(Pattern(k))
  {}

  lemma NoCallShape(p: Pat, x: Rtx, env: Env)
    requires Sane(env) && Is2(x, SET) && Is2(x.right, CALL) && NoCall(p)
    ensures !Shape(p, x, env)
  {}

  lemma CallSource(k: int, x: Rtx, env: Env)
    requires Sane(env) && Is2(x, SET) && Is2(x.right, CALL) && Shape(Pattern(k), x, env)
    ensures k == 244
  {
    if k != 244 {
      if k < 102 { NoCallBelow102(k); } else if k < 185 { NoCallFrom102(k); } else { NoCallAbove185(k); }
      NoCallShape(Pattern(k), x, env);
    }
  }
}
