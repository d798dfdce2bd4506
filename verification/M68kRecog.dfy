// The m68k instruction recogniser (cmd/gcc/m68k.gen/insn-recog.c).
//
// The goto-driven search is written with structured control flow: a branch
// that fails falls through to the alternative its goto names.  recog_operand is
// the global array the search overwrites as it goes.

module M68kRecog {
  import opened Rtl
  import opened Patterns
  import opened M68kDescription
  import opened M68kIndex
  import opened M68kMeaning

  const MAX_RECOG_OPERANDS := 8

  // recog_operand holds what extract_k would put there.
  ghost predicate Holds(operand: array<Rtx>, k: int, x: Rtx)
    reads operand
  {
    var e := Extract(k, x);
    |e| <= operand.Length && forall i | 0 <= i < |e| :: operand[i] == e[i]
  }

  // What recog answers: the first match, except that a constant destination leaves
  // only the call pattern, and that the low part of a constant is taken for QImode
  // before HImode.
  ghost predicate Answer(r: int, x: Rtx, env: Env) {
    if Is2(x, SET) && VoidConstant(x.left) then r == if Matches(244, x, env) then 244 else -1
    else if BothModes(x, env) then r == 35
    else IsFirst(r, x, env)
  }

  ghost predicate Misread(x: Rtx, env: Env) {
    || (Is2(x, SET) && VoidConstant(x.left) && exists k :: k != 244 && Matches(k, x, env))
    || BothModes(x, env)
  }

  // The answer is the first match exactly when x is not misread, and nothing is
  // misread but a constant destination.
  lemma RightUnlessMisread(r: int, x: Rtx, env: Env)
    requires Sane(env) && Answer(r, x, env)
    ensures IsFirst(r, x, env) <==> !Misread(x, env)
    ensures !ConstantDestination(x) ==> IsFirst(r, x, env)
  {
    hide Matches;
    NoNegativeCode(x, env);
    BothModesStrict(x, env);
    if Is2(x, SET) && VoidConstant(x.left) { OnlyCall(x, env); }
  }

  // A constant destination that is misread, wherever zero is an SImode operand, and
  // one that is misread wherever it is a QImode and an HImode operand.
  lemma ConstantDestinationMisread(env: Env)
    requires Sane(env) && env.accepts(General, ConstInt(0), SI)
    ensures Misread(X2(SET, VOID, ConstInt(0), ConstInt(0)), env)
  {
    var x := X2(SET, VOID, ConstInt(0), ConstInt(0));
    SiMoveRows(x, env);
    assert Matches(31, x, env);
  }

  lemma StrictConstantMisread(env: Env)
    requires Sane(env) && env.accepts(General, ConstInt(0), QI) && env.accepts(General, ConstInt(0), HI)
    ensures Misread(X2(SET, VOID, X1(STRICT_LOW_PART, VOID, ConstInt(0)), ConstInt(0)), env)
  {
    var x := X2(SET, VOID, X1(STRICT_LOW_PART, VOID, ConstInt(0)), ConstInt(0));
    StrictMoveRow(35, QI, x, env);
    StrictMoveRow(33, HI, x, env);
  }

  class Recog {
    const operand: array<Rtx>
    const env: Env

    constructor (env: Env)
      ensures this.env == env && operand.Length == MAX_RECOG_OPERANDS && fresh(operand)
    {
      this.env := env;
      operand := new Rtx[MAX_RECOG_OPERANDS](_ => CC0_RTX);
    }

    predicate Ready() { operand.Length == MAX_RECOG_OPERANDS }

    // ------------------------------------------------------------------------
    // recog_1: tests and comparisons

    method Test(x0: Rtx, m: Mode, k: int, flag: bool) returns (r: int)
      requires Ready() && Is2(x0, SET) && TestMeaning(k, m, flag, x0, env)
      modifies operand
      ensures r == if Matches(k, x0, env) then k else -1
      ensures r != -1 ==> Holds(operand, k, x0)
    {
      hide Matches;
      hide Extract;
      var x1 := x0.right;
      if env.accepts(General, x1, m) {
        operand[0] := x1;
        if flag { return k; }
      }
      return -1;
    }

    // L8 to L14
    method IntegerTest(x0: Rtx) returns (r: int)
      requires Ready() && Is2(x0, SET) && x0.left == CC0_RTX
      modifies operand
      ensures FirstIn(r, {2, 3, 4}, x0, env)
      ensures r != -1 ==> Holds(operand, r, x0)
    {
      hide Matches;
      hide Holds;
      hide TestMeaning;
      TestRows(x0, env);
      r := Test(x0, SI, 2, true);
      if r != -1 { return; }
      r := Test(x0, HI, 3, true);
      if r != -1 { return; }
      r := Test(x0, QI, 4, true);
    }

    // L23 and L32
    method RealTest(x0: Rtx) returns (r: int)
      requires Ready() && Is2(x0, SET) && x0.left == CC0_RTX
      modifies operand
      ensures FirstIn(r, {7, 10}, x0, env)
      ensures r != -1 ==> Holds(operand, r, x0)
    {
      hide Matches;
      hide Holds;
      hide TestMeaning;
      TestRows(x0, env);
      r := Test(x0, SF, 7, env.t68881);
      if r != -1 { return; }
      r := Test(x0, DF, 10, env.t68881);
    }

    method CcDestination(x0: Rtx) returns (r: int)
      requires Ready() && Sane(env) && Is2(x0, SET) && x0.left == CC0_RTX
      modifies operand
      ensures FirstIn(r, {2, 3, 4, 7, 10} + CcSpecial(x0.right), x0, env)
      ensures r != -1 ==> Holds(operand, r, x0)
    {
      hide Matches;
      hide Holds;
      hide CcSpecial;
      CcSpecialRange(x0.right);
      r := IntegerTest(x0);
      if r != -1 { return; }
      r := RealTest(x0);
      if r != -1 { return; }
      r := CcSource(x0);
    }

    // L35 and L882
    method CcSource(x0: Rtx) returns (r: int)
      requires Ready() && Sane(env) && Is2(x0, SET) && x0.left == CC0_RTX
      modifies operand
      ensures FirstIn(r, CcSpecial(x0.right), x0, env)
      ensures r != -1 ==> Holds(operand, r, x0)
    {
      hide Matches;
      hide Holds;
      hide Extract;
      var x1 := x0.right;
      if Is2(x1, COMPARE) {
        r := CcCompare(x0);
      } else if Is3(x1, ZERO_EXTRACT) {
        r := CcBit(x0);
        if r != -1 { return; }
        if x1.mode == SI { r := CcField(x0); }
      } else if Is2(x1, AND) && x1.mode == SI {
        r := CcPower(x0);
      } else if x1.Subreg? && x1.word == 0 {
        if x1.mode == SI { r := CcSign(x0); }
        else if x1.mode == QI { r := CcSubfield(x0, QI, 200); }
        else if x1.mode == HI { r := CcSubfield(x0, HI, 201); }
        else { r := -1; }
      } else {
        r := -1;
      }
    }

    // L36 to L73, then L676 to L700
    method CcCompare(x0: Rtx) returns (r: int)
      requires Ready() && Is2(x0, SET) && x0.left == CC0_RTX && Is2(x0.right, COMPARE)
      modifies operand
      ensures FirstIn(r, {11, 12, 13, 16, 19, 163, 164, 165, 166}, x0, env)
      ensures r != -1 ==> Holds(operand, r, x0)
    {
      hide Matches;
      hide Holds;
      r := CompareOperands(x0);
      if r != -1 { return; }
      r := CompareBytes(x0);
    }

    method CompareOperands(x0: Rtx) returns (r: int)
      requires Ready() && Is2(x0, SET) && x0.left == CC0_RTX && Is2(x0.right, COMPARE)
      modifies operand
      ensures FirstIn(r, {11, 12, 13, 16, 19}, x0, env)
      ensures r != -1 ==> Holds(operand, r, x0)
    {
      hide Matches;
      hide Holds;
      hide CompareMeaning;
      r := CompareIntegers(x0);
      if r != -1 { return; }
      RealCompareRows(x0, env);
      r := Compare(x0, DF, 16, env.t68881);
      if r != -1 { return; }
      r := Compare(x0, SF, 19, env.t68881);
    }

    method CompareIntegers(x0: Rtx) returns (r: int)
      requires Ready() && Is2(x0, SET) && x0.left == CC0_RTX && Is2(x0.right, COMPARE)
      modifies operand
      ensures FirstIn(r, {11, 12, 13}, x0, env)
      ensures r != -1 ==> Holds(operand, r, x0)
    {
      hide Matches;
      hide Holds;
      hide CompareMeaning;
      CompareRows(x0, env);
      r := Compare(x0, SI, 11, true);
      if r != -1 { return; }
      r := Compare(x0, HI, 12, true);
      if r != -1 { return; }
      r := Compare(x0, QI, 13, true);
    }

    method CompareBytes(x0: Rtx) returns (r: int)
      requires Ready() && Is2(x0, SET) && x0.left == CC0_RTX && Is2(x0.right, COMPARE)
      modifies operand
      ensures FirstIn(r, {163, 164, 165, 166}, x0, env)
      ensures r != -1 ==> Holds(operand, r, x0)
    {
      hide Matches;
      hide Holds;
      r := CompareTop(x0, LSHIFTRT, 163);
      if r != -1 { return; }
      r := TopCompare(x0, LSHIFTRT, 164);
      if r != -1 { return; }
      r := CompareTop(x0, ASHIFTRT, 165);
      if r != -1 { return; }
      r := TopCompare(x0, ASHIFTRT, 166);
    }

    method Compare(x0: Rtx, m: Mode, k: int, flag: bool) returns (r: int)
      requires Ready() && Is2(x0, SET) && x0.right.X2? && CompareMeaning(k, m, flag, x0, env)
      modifies operand
      ensures r == if Matches(k, x0, env) then k else -1
      ensures r != -1 ==> Holds(operand, k, x0)
    {
      hide Matches;
      hide Extract;
      var x1 := x0.right;
      var x2 := x1.left;
      if env.accepts(General, x2, m) {
        operand[0] := x2;
        x2 := x1.right;
        if env.accepts(General, x2, m) {
          operand[1] := x2;
          if flag { return k; }
        }
      }
      return -1;
    }

    // L676 (c = LSHIFTRT, k = 163) and L690 (c = ASHIFTRT, k = 165)
    method CompareTop(x0: Rtx, c: Code2, k: int) returns (r: int)
      requires Ready() && Is2(x0, SET) && x0.left == CC0_RTX && Is2(x0.right, COMPARE)
      requires (k == 163 && c == LSHIFTRT) || (k == 165 && c == ASHIFTRT)
      modifies operand
      ensures r == if Matches(k, x0, env) then k else -1
      ensures r != -1 ==> Holds(operand, k, x0)
    {
      hide Matches;
      hide Extract;
      CompareTopRow(k, c, x0, env);
      var x1 := x0.right;
      var x2 := x1.left;
      if env.accepts(General, x2, QI) {
        operand[0] := x2;
        x2 := x1.right;
        if Is2(x2, c) && x2.mode == SI {
          var x3 := x2.left;
          if env.accepts(Memory, x3, SI) {
            operand[1] := x3;
            x3 := x2.right;
            if IsInt(x3, 24) {
              if TopConstant(c, operand[0]) && Rereadable(operand[1]) { return k; }
            }
          }
        }
      }
      return -1;
    }

    // L683 (c = LSHIFTRT, k = 164) and L697 (c = ASHIFTRT, k = 166)
    method TopCompare(x0: Rtx, c: Code2, k: int) returns (r: int)
      requires Ready() && Is2(x0, SET) && x0.left == CC0_RTX && Is2(x0.right, COMPARE)
      requires (k == 164 && c == LSHIFTRT) || (k == 166 && c == ASHIFTRT)
      modifies operand
      ensures r == if Matches(k, x0, env) then k else -1
      ensures r != -1 ==> Holds(operand, k, x0)
    {
      hide Matches;
      hide Extract;
      TopCompareRow(k, c, x0, env);
      var x1 := x0.right;
      var x2 := x1.left;
      if Is2(x2, c) && x2.mode == SI {
        var x3 := x2.left;
        if env.accepts(Memory, x3, SI) {
          operand[0] := x3;
          x3 := x2.right;
          if IsInt(x3, 24) {
            x2 := x1.right;
            if env.accepts(General, x2, QI) {
              operand[1] := x2;
              if TopConstant(c, operand[1]) && Rereadable(operand[0]) { return k; }
            }
          }
        }
      }
      return -1;
    }

    // L77, L119, L85: the three modes of a tested bit
    method CcBit(x0: Rtx) returns (r: int)
      requires Ready() && Sane(env) && Is2(x0, SET) && x0.left == CC0_RTX && Is3(x0.right, ZERO_EXTRACT)
      modifies operand
      ensures FirstIn(r, BIT_TESTS, x0, env)
      ensures r != -1 ==> Holds(operand, r, x0)
    {
      hide Matches;
      hide Holds;
      hide Extract;
      BitModes(x0, env);
      r := BitTest(x0, QI, 7, 20, 22, 24);
      if r != -1 { return; }
      r := FixedBitTest(x0, HI, 25);
      if r != -1 { return; }
      r := BitTest(x0, SI, 31, 21, 23, 26);
    }

    // L78 to L99 in QImode, L86 to L109 in SImode
    method BitTest(x0: Rtx, m: Mode, top: int, reg: int, masked: int, fixed: int) returns (r: int)
      requires Ready() && Is2(x0, SET) && x0.left == CC0_RTX && Is3(x0.right, ZERO_EXTRACT)
      requires (m == QI && top == 7 && reg == 20 && masked == 22 && fixed == 24)
        || (m == SI && top == 31 && reg == 21 && masked == 23 && fixed == 26)
      modifies operand
      ensures FirstIn(r, {reg, masked, fixed}, x0, env)
      ensures r != -1 ==> Holds(operand, r, x0)
    {
      hide Matches;
      hide Extract;
      FixedBitRow(fixed, m, x0, env);
      r := RegisterBitTest(x0, m, top, reg, masked);
      if r != -1 { return; }
      r := FixedBitTest(x0, m, fixed);
    }

    method RegisterBitTest(x0: Rtx, m: Mode, top: int, reg: int, masked: int) returns (r: int)
      requires Ready() && Is2(x0, SET) && x0.left == CC0_RTX && Is3(x0.right, ZERO_EXTRACT)
      requires (m == QI && top == 7 && reg == 20 && masked == 22) || (m == SI && top == 31 && reg == 21 && masked == 23)
      modifies operand
      ensures FirstIn(r, {reg, masked}, x0, env)
      ensures r != -1 ==> Holds(operand, r, x0)
    {
      hide Matches;
      hide Extract;
      BitRow(reg, m, top, x0, env);
      MaskedBitRow(masked, m, top, x0, env);
      var x1 := x0.right;
      var x2 := x1.fst;
      if env.accepts(Nonimmediate, x2, m) {
        operand[0] := x2;
        x2 := x1.snd;
        if IsInt(x2, 1) {
          x2 := x1.thd;
          if Is2(x2, MINUS) && x2.mode == SI {
            var x3 := x2.left;
            if IsInt(x3, top) {
              x3 := x2.right;
              if env.accepts(General, x3, SI) { operand[1] := x3; return reg; }
              if Is2(x3, AND) && x3.mode == SI {
                var x4 := x3.left;
                if env.accepts(General, x4, SI) {
                  operand[1] := x4;
                  x4 := x3.right;
                  if IsInt(x4, top) { return masked; }
                }
              }
            }
          }
        }
      }
      return -1;
    }

    // L115, L121, L127
    method FixedBitTest(x0: Rtx, m: Mode, k: int) returns (r: int)
      requires Ready() && Is2(x0, SET) && x0.left == CC0_RTX && Is3(x0.right, ZERO_EXTRACT)
      requires (k == 24 && m == QI) || (k == 25 && m == HI) || (k == 26 && m == SI)
      modifies operand
      ensures r == if Matches(k, x0, env) then k else -1
      ensures r != -1 ==> Holds(operand, r, x0)
    {
      hide Matches;
      hide Extract;
      FixedBitRow(k, m, x0, env);
      var x1 := x0.right;
      var x2 := x1.fst;
      if env.accepts(Nonimmediate, x2, m) {
        operand[0] := x2;
        x2 := x1.snd;
        if IsInt(x2, 1) {
          x2 := x1.thd;
          if env.accepts(General, x2, SI) {
            operand[1] := x2;
            if FixedBit(m, operand[1]) { return k; }
          }
        }
      }
      return -1;
    }

    // L883: a tested field
    method CcField(x0: Rtx) returns (r: int)
      requires Ready() && Is2(x0, SET) && x0.left == CC0_RTX && Is3(x0.right, ZERO_EXTRACT) && x0.right.mode == SI
      modifies operand
      ensures FirstIn(r, {199, 202}, x0, env)
      ensures r != -1 ==> Holds(operand, r, x0)
    {
      hide Matches;
      hide Holds;
      hide Extract;
      hide FieldMeaning;
      FieldRows(x0, env);
      r := FieldIn(x0, x0.right, Memory, QI, 199);
      if r != -1 { return; }
      r := FieldIn(x0, x0.right, Nonimmediate, SI, 202);
    }

    // L889 and L896: the low part of a tested field
    method CcSubfield(x0: Rtx, w: Mode, k: int) returns (r: int)
      requires Ready() && Is2(x0, SET) && x0.left == CC0_RTX
      requires x0.right.Subreg? && x0.right.mode == w && x0.right.word == 0
      requires (w == QI && k == 200) || (w == HI && k == 201)
      modifies operand
      ensures FirstIn(r, {k, k + 3}, x0, env)
      ensures r != -1 ==> Holds(operand, r, x0)
    {
      hide Matches;
      hide Extract;
      hide FieldMeaning;
      SubfieldRow(k, w, Memory, QI, x0, env);
      SubfieldRow(k + 3, w, Nonimmediate, SI, x0, env);
      var x2 := x0.right.reg;
      if !(Is3(x2, ZERO_EXTRACT) && x2.mode == SI) { return -1; }
      r := FieldIn(x0, x2, Memory, QI, k);
      if r != -1 { return; }
      r := FieldIn(x0, x2, Nonimmediate, SI, k + 3);
    }

    method FieldIn(x0: Rtx, y: Rtx, p: Predicate, m: Mode, k: int) returns (r: int)
      requires Ready() && Is3(y, ZERO_EXTRACT) && y.mode == SI && FieldMeaning(k, p, m, y, x0, env)
      modifies operand
      ensures r == if Matches(k, x0, env) then k else -1
      ensures r != -1 ==> Holds(operand, k, x0)
    {
      hide Matches;
      hide Extract;
      var x := y.fst;
      if env.accepts(p, x, m) {
        operand[0] := x;
        x := y.snd;
        if env.accepts(General, x, SI) {
          operand[1] := x;
          x := y.thd;
          if env.accepts(General, x, SI) {
            operand[2] := x;
            if env.t68020 && env.tBitfield && Is0(operand[1], CONST_INT) { return k; }
          }
        }
      }
      return -1;
    }

    // L131
    method CcSign(x0: Rtx) returns (r: int)
      requires Ready() && Is2(x0, SET) && x0.left == CC0_RTX
      requires x0.right.Subreg? && x0.right.mode == SI && x0.right.word == 0
      modifies operand
      ensures FirstIn(r, {27}, x0, env)
      ensures r != -1 ==> Holds(operand, r, x0)
    {
      hide Matches;
      hide Extract;
      SignBitRow(x0, env);
      var x2 := x0.right.reg;
      if Is2(x2, LSHIFTRT) && x2.mode == QI {
        var x3 := x2.left;
        if env.accepts(Nonimmediate, x3, QI) {
          operand[0] := x3;
          x3 := x2.right;
          if IsInt(x3, 7) { return 27; }
        }
      }
      return -1;
    }

    // L137
    method CcPower(x0: Rtx) returns (r: int)
      requires Ready() && Is2(x0, SET) && x0.left == CC0_RTX && Is2(x0.right, AND) && x0.right.mode == SI
      modifies operand
      ensures FirstIn(r, {28}, x0, env)
      ensures r != -1 ==> Holds(operand, r, x0)
    {
      hide Matches;
      hide Extract;
      PowerRow(x0, env);
      var x1 := x0.right;
      var x2 := x1.left;
      if Is1(x2, SIGN_EXTEND) && x2.mode == SI {
        var x3 := x2.arg;
        if Is1(x3, SIGN_EXTEND) && x3.mode == HI {
          var x4 := x3.arg;
          if env.accepts(Nonimmediate, x4, QI) {
            operand[0] := x4;
            x2 := x1.right;
            if env.accepts(General, x2, SI) {
              operand[1] := x2;
              if PowerOfTwoByte(operand[1]) { return 28; }
            }
          }
        }
      }
      return -1;
    }

    // ------------------------------------------------------------------------
    // L972 and recog_2: jumps

    method PcDestination(x0: Rtx) returns (r: int)
      requires Ready() && Sane(env) && Is2(x0, SET) && x0.left == PC_RTX
      modifies operand
      ensures FirstIn(r, PcCodes(x0.right), x0, env)
      ensures r != -1 ==> Holds(operand, r, x0)
    {
      hide Matches;
      hide Extract;
      var x1 := x0.right;
      if Is3(x1, IF_THEN_ELSE) {
        r := ConditionalJump(x0);
      } else if Is1(x1, LABEL_REF) {
        LabelRow(x0, env);
        operand[0] := x1.arg;
        r := 239;
      } else {
        r := -1;
      }
    }

    method ConditionalJump(x0: Rtx) returns (r: int)
      requires Ready() && Sane(env) && Is2(x0, SET) && x0.left == PC_RTX && Is3(x0.right, IF_THEN_ELSE)
      modifies operand
      ensures FirstIn(r, PcCodes(x0.right), x0, env)
      ensures r != -1 ==> Holds(operand, r, x0)
    {
      hide Matches;
      hide Extract;
      hide JumpCode;
      var x1 := x0.right;
      var x2 := x1.fst;
      if !x2.X2? || JumpCode(x2.code2) == -1 { return -1; }
      var c := x2.code2;
      JumpRow(c, x0, env);
      InvertedJumpRow(c, x0, env);
      if x2.left != CC0_RTX { return -1; }
      if !IsInt(x2.right, 0) { return -1; }
      x2 := x1.snd;
      if Is1(x2, LABEL_REF) {
        operand[0] := x2.arg;
        x2 := x1.thd;
        if x2 == PC_RTX { return JumpCode(c); }
        return -1;
      }
      if x2 == PC_RTX {
        x2 := x1.thd;
        if Is1(x2, LABEL_REF) {
          operand[0] := x2.arg;
          return JumpCode(c) + 10;
        }
      }
      return -1;
    }

    // L1222
    method CallValue(x0: Rtx) returns (r: int)
      requires Ready() && Sane(env) && Is2(x0, SET)
      modifies operand
      ensures r == if Matches(244, x0, env) then 244 else -1
      ensures r != -1 ==> Holds(operand, r, x0)
    {
      hide Matches;
      hide Extract;
      CallRow(x0, env);
      operand[0] := x0.left;
      var x1 := x0.right;
      if Is2(x1, CALL) {
        var x2 := x1.left;
        if env.accepts(General, x2, QI) {
          operand[1] := x2;
          x2 := x1.right;
          if env.accepts(General, x2, SI) { operand[2] := x2; return 244; }
        }
      }
      return -1;
    }

    // ------------------------------------------------------------------------
    // L162: strict_low_part

    method StrictDestination(x0: Rtx) returns (r: int)
      requires Ready() && Sane(env) && Is2(x0, SET) && Is1(x0.left, STRICT_LOW_PART)
      modifies operand
      ensures Matches(35, x0, env) ==> r == 35
      ensures !BothModes(x0, env) ==> FirstIn(r, {33, 35} + StrictSpecial(x0.right), x0, env)
      ensures r != -1 ==> Holds(operand, r, x0)
    {
      hide Matches;
      hide Holds;
      hide Extract;
      StrictOrder(x0, env);
      r := StrictIn(x0, QI, 35);
      if r != -1 { return; }
      r := StrictIn(x0, HI, 33);
    }

    method StrictIn(x0: Rtx, m: Mode, move: int) returns (r: int)
      requires Ready() && Is2(x0, SET) && Is1(x0.left, STRICT_LOW_PART)
      requires (m == QI && move == 35) || (m == HI && move == 33)
      modifies operand
      ensures FirstIn(r, {move} + (if x0.right.mode == m then StrictSpecial(x0.right) else {}), x0, env)
      ensures r != -1 ==> Holds(operand, r, x0)
    {
      hide Matches;
      hide Extract;
      hide RtxEqual;
      StrictMoveRow(move, m, x0, env);
      StrictRow(m, PLUS, x0, env);
      StrictRow(m, MINUS, x0, env);
      var x2 := x0.left.arg;
      if env.accepts(General, x2, m) {
        operand[0] := x2;
        var x1 := x0.right;
        if env.accepts(General, x1, m) { operand[1] := x1; return move; }
        if x1.mode != m { return -1; }
        if Is2(x1, PLUS) || Is2(x1, MINUS) {
          x2 := x1.left;
          if RtxEqual(x2, operand[0]) {
            x2 := x1.right;
            if env.accepts(General, x2, m) { operand[1] := x2; return StrictCode(m, x1.code2); }
          }
        }
      }
      return -1;
    }

    // ------------------------------------------------------------------------
    // L158: operand destinations

    // The labels of the switches of recog_3 to recog_6, in the order of Rows.
    method TryRow(x0: Rtx, row: Row) returns (r: int)
      requires Ready() && Is2(x0, SET) && operand[0] == x0.left
      requires RowMeaning(row, x0.left.mode, x0, env) && env.accepts(General, x0.left, x0.left.mode)
      modifies operand
      ensures operand[0] == old(operand[0])
      ensures r == if Matches(row.k, x0, env) then row.k else -1
      ensures r != -1 ==> Holds(operand, r, x0)
    {
      hide Matches;
      hide Extract;
      var x1 := x0.right;
      if x1.X1? {
        var x2 := x1.arg;
        if env.accepts(General, x2, row.a) {
          operand[1] := x2;
          if Allowed(row.need, env) { return row.k; }
        }
      } else if x1.X2? {
        var x2 := x1.left;
        if env.accepts(General, x2, row.a) {
          operand[1] := x2;
          x2 := x1.right;
          if env.accepts(General, x2, row.b) {
            operand[2] := x2;
            if Allowed(row.need, env) { return row.k; }
          }
        }
      }
      return -1;
    }

    method TryRows(x0: Rtx) returns (r: int)
      requires Ready() && Is2(x0, SET) && operand[0] == x0.left
      requires env.accepts(General, x0.left, x0.left.mode)
      modifies operand
      ensures operand[0] == old(operand[0])
      ensures FirstIn(r, Codes(Rows(x0.left.mode, x0.right)), x0, env)
      ensures r != -1 ==> Holds(operand, r, x0)
    {
      RowsMean(x0.left.mode, x0, env);
      var rows := Rows(x0.left.mode, x0.right);
      hide Matches;
      hide Holds;
      hide RowMeaning;
      hide Codes;
      hide Rows;
      var i := 0;
      while i < |rows|
        invariant 0 <= i <= |rows| && operand[0] == old(operand[0])
        invariant forall j | 0 <= j < i :: !Matches(rows[j].k, x0, env)
      {
        r := TryRow(x0, rows[i]);
        if r != -1 {
          RowsOrdered(rows, i);
          return;
        }
        i := i + 1;
      }
      return -1;
    }

    // recog_6, L158, and recog_3
    method QiDestination(x0: Rtx) returns (r: int)
      requires Ready() && Sane(env) && Is2(x0, SET) && x0.left.mode == QI
      modifies operand
      ensures FirstIn(r, OperandCodes(QI, x0.right), x0, env)
      ensures r != -1 ==> OperandForm(x0.left) && Holds(operand, r, x0)
    {
      SmallMoveRows(x0, env);
      SourceRange(QI, x0, env);
      NoNegativeCode(x0, env);
      FlagsNeedOperand(x0, env);
      hide Matches;
      hide Rows;
      hide FlagCodes;
      var x1 := x0.left;
      if !env.accepts(General, x1, QI) {
        RowsNeedOperand(x0, env);
        return -1;
      }
      operand[0] := x1;
      x1 := x0.right;
      if env.accepts(General, x1, QI) { operand[1] := x1; return 34; }
      hide Holds;
      r := TryRows(x0);
      if r != -1 {
        RowsAndFlags(x0, env);
        return;
      }
      r := StoreFlagSource(x0);
    }

    // L923 to L969
    method StoreFlagSource(x0: Rtx) returns (r: int)
      requires Ready() && Is2(x0, SET) && env.accepts(General, x0.left, QI) && operand[0] == x0.left
      ensures FirstIn(r, FlagCodes(x0.right), x0, env)
      ensures r != -1 ==> Holds(operand, r, x0)
    {
      hide Matches;
      hide StoreFlagCode;
      hide Extract;
      var x1 := x0.right;
      if !x1.X2? || StoreFlagCode(x1.code2) == -1 { return -1; }
      StoreFlagRow(x1.code2, x0, env);
      var x2 := x1.left;
      if x2 == CC0_RTX {
        x2 := x1.right;
        if IsInt(x2, 0) { return StoreFlagCode(x1.code2); }
      }
      return -1;
    }

    // recog_6, L151, and recog_4
    method HiDestination(x0: Rtx) returns (r: int)
      requires Ready() && Sane(env) && Is2(x0, SET) && x0.left.mode == HI
      modifies operand
      ensures FirstIn(r, OperandCodes(HI, x0.right), x0, env)
      ensures r != -1 ==> OperandForm(x0.left) && Holds(operand, r, x0)
    {
      SmallMoveRows(x0, env);
      SourceRange(HI, x0, env);
      NoNegativeCode(x0, env);
      hide Matches;
      hide Rows;
      var x1 := x0.left;
      if !env.accepts(General, x1, HI) {
        RowsNeedOperand(x0, env);
        return -1;
      }
      operand[0] := x1;
      x1 := x0.right;
      if env.accepts(General, x1, HI) { operand[1] := x1; return 32; }
      hide Holds;
      r := TryRows(x0);
    }

    method DiDestination(x0: Rtx) returns (r: int)
      requires Ready() && Sane(env) && Is2(x0, SET) && x0.left.mode == DI
      modifies operand
      ensures FirstIn(r, OperandCodes(DI, x0.right), x0, env)
      ensures r != -1 ==> OperandForm(x0.left) && Holds(operand, r, x0)
    {
      hide Matches;
      hide Extract;
      WideMoveRows(x0, env);
      var x1 := x0.left;
      if env.accepts(Push, x1, DI) {
        operand[0] := x1;
        x1 := x0.right;
        if env.accepts(General, x1, DI) { operand[1] := x1; return 1; }
        x1 := x0.left;
      }
      if env.accepts(General, x1, DI) {
        operand[0] := x1;
        x1 := x0.right;
        if env.accepts(General, x1, DI) { operand[1] := x1; return 38; }
      }
      return -1;
    }

    // L143, L146, L175: the SImode moves
    method SiMoves(x0: Rtx) returns (r: int)
      requires Ready() && Sane(env) && Is2(x0, SET) && x0.left.mode == SI
      modifies operand
      ensures FirstIn(r, {29, 30, 31, 39}, x0, env)
      ensures r != -1 ==> OperandForm(x0.left) && Holds(operand, r, x0)
    {
      hide Matches;
      hide Extract;
      SiMoveRows(x0, env);
      var x1 := x0.left;
      if env.accepts(Push, x1, SI) {
        operand[0] := x1;
        x1 := x0.right;
        if env.accepts(General, x1, SI) {
          operand[1] := x1;
          if ShortConstant(operand[1]) { return 29; }
        }
        x1 := x0.left;
      }
      r := SiMove(x0);
      if r != -1 { return; }
      if env.accepts(Push, x1, SI) {
        operand[0] := x1;
        x1 := x0.right;
        if env.accepts(Address, x1, SI) { operand[1] := x1; return 39; }
      }
      return -1;
    }

    // L145
    method SiMove(x0: Rtx) returns (r: int)
      requires Ready() && Sane(env) && Is2(x0, SET) && x0.left.mode == SI
      modifies operand
      ensures FirstIn(r, {30, 31}, x0, env)
      ensures r != -1 ==> OperandForm(x0.left) && Holds(operand, r, x0)
    {
      hide Matches;
      hide Extract;
      SiMoveRows(x0, env);
      var x1 := x0.left;
      if env.accepts(General, x1, SI) {
        operand[0] := x1;
        x1 := x0.right;
        if IsInt(x1, 0) {
          if Clearable(operand[0], env) { return 30; }
        }
        if env.accepts(General, x1, SI) { operand[1] := x1; return 31; }
      }
      return -1;
    }

    // recog_5, L190
    method SiSource(x0: Rtx) returns (r: int)
      requires Ready() && Is2(x0, SET) && x0.left.mode == SI
      requires env.accepts(General, x0.left, SI) && operand[0] == x0.left
      modifies operand
      ensures FirstIn(r, Codes(Rows(SI, x0.right)) + SiSpecial(x0.right), x0, env)
      ensures r != -1 ==> Holds(operand, r, x0)
    {
      hide Matches;
      hide Holds;
      var x1 := x0.right;
      if x1.mode != SI { return -1; }
      if Is1(x1, FIX) {
        r := FixSource(x0);
      } else if Is2(x1, PLUS) || Is2(x1, MINUS) {
        r := AddSource(x0);
      } else if Is2(x1, AND) {
        r := AndSource(x0);
      } else if Is2(x1, ASHIFTRT) {
        r := ShiftSource(x0, ASHIFTRT, 161);
      } else if Is2(x1, LSHIFTRT) {
        r := ShiftSource(x0, LSHIFTRT, 162);
      } else {
        hide Rows;
        r := TryRows(x0);
      }
    }

    // L279
    method FixSource(x0: Rtx) returns (r: int)
      requires Ready() && Is2(x0, SET) && x0.left.mode == SI && Is1(x0.right, FIX) && x0.right.mode == SI
      requires env.accepts(General, x0.left, SI) && operand[0] == x0.left
      modifies operand
      ensures FirstIn(r, Codes(Rows(SI, x0.right)) + {76, 77}, x0, env)
      ensures r != -1 ==> Holds(operand, r, x0)
    {
      hide Matches;
      hide Extract;
      hide Rows;
      FixRowsBelow(x0.right);
      DoubleFixRow(76, SF, x0, env);
      DoubleFixRow(77, DF, x0, env);
      r := TryRows(x0);
      if r != -1 { return; }
      var x2 := x0.right.arg;
      if !Is1(x2, FIX) { return -1; }
      if x2.mode == SF {
        var x3 := x2.arg;
        if env.accepts(General, x3, SF) {
          operand[1] := x3;
          if env.tFpa { return 76; }
        }
      } else if x2.mode == DF {
        var x3 := x2.arg;
        if env.accepts(General, x3, DF) {
          operand[1] := x3;
          if env.tFpa { return 77; }
        }
      }
      return -1;
    }

    // L305 and L358
    method AddSource(x0: Rtx) returns (r: int)
      requires Ready() && Is2(x0, SET) && (Is2(x0.right, PLUS) || Is2(x0.right, MINUS)) && x0.right.mode == SI
      requires env.accepts(General, x0.left, SI) && operand[0] == x0.left
      modifies operand
      ensures FirstIn(r, Codes(Rows(SI, x0.right)) + SiSpecial(x0.right), x0, env)
      ensures r != -1 ==> Holds(operand, r, x0)
    {
      hide Matches;
      hide Extract;
      hide Rows;
      hide Codes;
      var x1 := x0.right;
      var k := PlainCode(x1.code2);
      PlainRow(x0, env);
      ExtendedAddRow(k + 1, x1.code2, x0, env);
      assert SiSpecial(x1) == {k + 1};
      var x2 := x1.left;
      if env.accepts(General, x2, SI) {
        operand[1] := x2;
        x2 := x1.right;
        if env.accepts(General, x2, SI) { operand[2] := x2; return k; }
        if Is1(x2, SIGN_EXTEND) && x2.mode == SI {
          var x3 := x2.arg;
          if env.accepts(General, x3, HI) { operand[2] := x3; return k + 1; }
        }
      }
      return -1;
    }

    // L553
    method AndSource(x0: Rtx) returns (r: int)
      requires Ready() && Is2(x0, SET) && Is2(x0.right, AND) && x0.right.mode == SI
      requires env.accepts(General, x0.left, SI) && operand[0] == x0.left
      modifies operand
      ensures FirstIn(r, Codes(Rows(SI, x0.right)) + SiSpecial(x0.right), x0, env)
      ensures r != -1 ==> Holds(operand, r, x0)
    {
      hide Matches;
      hide Extract;
      hide Rows;
      PlainRow(x0, env);
      var x1 := x0.right;
      var x2 := x1.left;
      if env.accepts(General, x2, SI) {
        operand[1] := x2;
        x2 := x1.right;
        if env.accepts(General, x2, SI) { operand[2] := x2; return 132; }
        x2 := x1.left;
      }
      r := MaskedExtension(x0);
    }

    // L568
    method MaskedExtension(x0: Rtx) returns (r: int)
      requires Ready() && Is2(x0, SET) && Is2(x0.right, AND) && x0.right.mode == SI
      requires env.accepts(General, x0.left, SI) && operand[0] == x0.left
      modifies operand
      ensures FirstIn(r, {135, 136}, x0, env)
      ensures r != -1 ==> Holds(operand, r, x0)
    {
      hide Matches;
      hide Extract;
      ExtendedAndRow(135, HI, 0x1_0000, x0, env);
      ExtendedAndRow(136, QI, 0x100, x0, env);
      var x1 := x0.right;
      var x2 := x1.left;
      if !(Is1(x2, ZERO_EXTEND) && x2.mode == SI) { return -1; }
      var x3 := x2.arg;
      if env.accepts(General, x3, HI) {
        operand[1] := x3;
        x2 := x1.right;
        if env.accepts(General, x2, SI) {
          operand[2] := x2;
          if UnsignedBelow(operand[2], 0x1_0000) { return 135; }
        }
        x2 := x1.left;
        x3 := x2.arg;
      }
      if env.accepts(General, x3, QI) {
        operand[1] := x3;
        x2 := x1.right;
        if env.accepts(General, x2, SI) {
          operand[2] := x2;
          if UnsignedBelow(operand[2], 0x100) { return 136; }
        }
      }
      return -1;
    }

    // L666 and L671
    method ShiftSource(x0: Rtx, ghost c: Code2, k: int) returns (r: int)
      requires Ready() && Is2(x0, SET) && x0.left.mode == SI && Is2(x0.right, c) && x0.right.mode == SI
      requires (k == 161 && c == ASHIFTRT) || (k == 162 && c == LSHIFTRT)
      requires env.accepts(General, x0.left, SI) && operand[0] == x0.left
      modifies operand
      ensures FirstIn(r, Codes(Rows(SI, x0.right)) + SiSpecial(x0.right), x0, env)
      ensures r != -1 ==> Holds(operand, r, x0)
    {
      TopByteRow(k, c, x0, env);
      assert forall j :: j in Codes(Rows(SI, x0.right)) ==> k < j;
      hide Matches;
      hide Extract;
      hide Rows;
      var x1 := x0.right;
      var x2 := x1.left;
      if env.accepts(Memory, x2, SI) {
        operand[1] := x2;
        x2 := x1.right;
        if IsInt(x2, 24) {
          if Rereadable(operand[1]) { return k; }
        }
      }
      r := TryRows(x0);
    }

    // L823: fields of a QImode place, then of an SImode place
    method FieldDestination(x0: Rtx) returns (r: int)
      requires Ready() && Sane(env) && Is2(x0, SET) && Is3(x0.left, ZERO_EXTRACT) && x0.left.mode == SI
      modifies operand
      ensures FirstIn(r, FIELD_CODES, x0, env)
      ensures r != -1 ==> Holds(operand, r, x0)
    {
      hide Matches;
      hide Holds;
      FieldModes(x0, env);
      r := QiField(x0);
      if r != -1 { return; }
      r := SiUnit(x0);
      if r != -1 { return; }
      r := PutField(x0, SI, 196, 197, 198);
    }

    // L824
    method QiField(x0: Rtx) returns (r: int)
      requires Ready() && Sane(env) && Is2(x0, SET) && Is3(x0.left, ZERO_EXTRACT) && x0.left.mode == SI
      modifies operand
      ensures FirstIn(r, {190, 191, 192, 193}, x0, env)
      ensures r != -1 ==> Holds(operand, r, x0)
    {
      hide Matches;
      hide Holds;
      r := Complement(x0);
      if r != -1 { return; }
      r := PutField(x0, QI, 191, 192, 193);
    }

    // L827: a field complemented in place
    method Complement(x0: Rtx) returns (r: int)
      requires Ready() && Is2(x0, SET) && Is3(x0.left, ZERO_EXTRACT) && x0.left.mode == SI
      modifies operand
      ensures r == if Matches(190, x0, env) then 190 else -1
      ensures r != -1 ==> Holds(operand, r, x0)
    {
      hide Matches;
      hide Extract;
      hide RtxEqual;
      ComplementRow(x0, env);
      var ok := FieldParts(x0, QI);
      if !ok { return -1; }
      var x1 := x0.right;
      if Is2(x1, XOR) && x1.mode == SI {
        var x2 := x1.left;
        if Is3(x2, ZERO_EXTRACT) && x2.mode == SI {
          var x3 := x2.fst;
          if !RtxEqual(x3, operand[0]) { return -1; }
          x3 := x2.snd;
          if !RtxEqual(x3, operand[1]) { return -1; }
          x3 := x2.thd;
          if !RtxEqual(x3, operand[2]) { return -1; }
          x2 := x1.right;
          if env.accepts(Immediate, x2, VOID) {
            operand[3] := x2;
            if env.t68020 && env.tBitfield && ComplementsField(operand[3], operand[1], env) { return 190; }
          }
        }
      }
      return -1;
    }

    // The place, width and position of the field x0 writes.
    method FieldParts(x0: Rtx, m: Mode) returns (ok: bool)
      requires Ready() && Is2(x0, SET) && Is3(x0.left, ZERO_EXTRACT) && x0.left.mode == SI
      modifies operand
      ensures ok == Field(ZERO_EXTRACT, m, General, x0.left, env)
      ensures ok ==> operand[0] == x0.left.fst && operand[1] == x0.left.snd && operand[2] == x0.left.thd
    {
      var x1 := x0.left;
      var x2 := x1.fst;
      if !env.accepts(Nonimmediate, x2, m) { return false; }
      operand[0] := x2;
      x2 := x1.snd;
      if !env.accepts(General, x2, SI) { return false; }
      operand[1] := x2;
      x2 := x1.thd;
      if !env.accepts(General, x2, SI) { return false; }
      operand[2] := x2;
      return true;
    }

    // L826 to L849 in QImode, L865 to L879 in SImode
    method PutField(x0: Rtx, m: Mode, clear: int, ones: int, any: int) returns (r: int)
      requires Ready() && Is2(x0, SET) && Is3(x0.left, ZERO_EXTRACT) && x0.left.mode == SI
      requires (m == QI && clear == 191 && ones == 192 && any == 193)
        || (m == SI && clear == 196 && ones == 197 && any == 198)
      modifies operand
      ensures FirstIn(r, {clear, ones, any}, x0, env)
      ensures r != -1 ==> Holds(operand, r, x0)
    {
      hide Matches;
      hide Extract;
      hide Field;
      PutFieldRows(m, clear, ones, any, x0, env);
      var ok := FieldParts(x0, m);
      if !ok { return -1; }
      var x1 := x0.right;
      if IsInt(x1, 0) {
        if env.t68020 && env.tBitfield { return clear; }
      }
      if IsInt(x1, -1) {
        if env.t68020 && env.tBitfield { return ones; }
      }
      if env.accepts(General, x1, SI) {
        operand[3] := x1;
        if env.t68020 && env.tBitfield { return any; }
      }
      return -1;
    }

    // L794: a byte or halfword stored whole
    method SiUnit(x0: Rtx) returns (r: int)
      requires Ready() && Is2(x0, SET) && Is3(x0.left, ZERO_EXTRACT) && x0.left.mode == SI
      modifies operand
      ensures r == if Matches(185, x0, env) then 185 else -1
      ensures r != -1 ==> Holds(operand, r, x0)
    {
      hide Matches;
      hide Extract;
      PutUnitRow(x0, env);
      var x1 := x0.left;
      var x2 := x1.fst;
      if env.accepts(Nonimmediate, x2, SI) {
        operand[0] := x2;
        x2 := x1.snd;
        if env.accepts(Immediate, x2, SI) {
          operand[1] := x2;
          x2 := x1.thd;
          if env.accepts(Immediate, x2, SI) {
            operand[2] := x2;
            x1 := x0.right;
            if env.accepts(General, x1, SI) {
              operand[3] := x1;
              if env.t68020 && env.tBitfield && WholeUnit(operand[0], operand[1], operand[2], env) { return 185; }
            }
          }
        }
      }
      return -1;
    }

    // L799: fields and addresses loaded into an SImode destination
    method LateSource(x0: Rtx) returns (r: int)
      requires Ready() && Sane(env) && Is2(x0, SET) && x0.left.mode == SI
      requires env.accepts(General, x0.left, SI) && operand[0] == x0.left
      modifies operand
      ensures FirstIn(r, ExtractCodes(x0.right) + {246}, x0, env)
      ensures r != -1 ==> Holds(operand, r, x0)
    {
      hide Matches;
      SiMoveRows(x0, env);
      var x1 := x0.right;
      if Is3(x1, ZERO_EXTRACT) && x1.mode == SI {
        r := GetField(x0, ZERO_EXTRACT, 189, 186, 195);
        if r != -1 { return; }
      } else if Is3(x1, SIGN_EXTRACT) && x1.mode == SI {
        r := GetField(x0, SIGN_EXTRACT, 188, 187, 194);
        if r != -1 { return; }
      }
      if env.accepts(Address, x1, QI) { operand[1] := x1; return 246; }
      return -1;
    }

    // L818 and L812
    method GetField(x0: Rtx, ghost c: Code3, byte: int, unit: int, any: int) returns (r: int)
      requires Ready() && Sane(env) && Is2(x0, SET) && Is3(x0.right, c) && x0.right.mode == SI
      requires (c == ZERO_EXTRACT && byte == 189 && unit == 186 && any == 195)
        || (c == SIGN_EXTRACT && byte == 188 && unit == 187 && any == 194)
      requires env.accepts(General, x0.left, SI) && operand[0] == x0.left
      modifies operand
      ensures operand[0] == old(operand[0])
      ensures FirstIn(r, ExtractCodes(x0.right), x0, env)
      ensures r != -1 ==> Holds(operand, r, x0)
    {
      hide Matches;
      hide Extract;
      hide Holds;
      hide Field;
      GetFieldRow(byte, c, QI, x0, env);
      GetModes(c, byte, unit, any, x0, env);
      r := GetGeneral(x0, QI, byte);
      if r != -1 { return; }
      r := GetSi(x0, c, unit, any);
    }

    // L800 and L806
    method GetSi(x0: Rtx, ghost c: Code3, unit: int, any: int) returns (r: int)
      requires Ready() && Is2(x0, SET) && Is3(x0.right, c) && x0.right.mode == SI
      requires (c == ZERO_EXTRACT && unit == 186 && any == 195) || (c == SIGN_EXTRACT && unit == 187 && any == 194)
      requires env.accepts(General, x0.left, SI) && operand[0] == x0.left
      modifies operand
      ensures operand[0] == old(operand[0])
      ensures FirstIn(r, {unit, any}, x0, env)
      ensures r != -1 ==> Holds(operand, r, x0)
    {
      hide Matches;
      hide Extract;
      hide Holds;
      hide Field;
      GetFieldRow(any, c, SI, x0, env);
      r := GetUnit(x0, c, unit);
      if r != -1 { return; }
      r := GetGeneral(x0, SI, any);
    }

    method GetGeneral(x0: Rtx, m: Mode, k: int) returns (r: int)
      requires Ready() && Is2(x0, SET) && x0.right.X3? && x0.right.mode == SI && operand[0] == x0.left
      requires Matches(k, x0, env) <==> Field(x0.right.code3, m, General, x0.right, env) && FieldSwitch(env)
      requires Extract(k, x0) == [x0.left, x0.right.fst, x0.right.snd, x0.right.thd]
      modifies operand
      ensures operand[0] == old(operand[0])
      ensures r == if Matches(k, x0, env) then k else -1
      ensures r != -1 ==> Holds(operand, r, x0)
    {
      hide Matches;
      hide Extract;
      var x1 := x0.right;
      var x2 := x1.fst;
      if env.accepts(Nonimmediate, x2, m) {
        operand[1] := x2;
        x2 := x1.snd;
        if env.accepts(General, x2, SI) {
          operand[2] := x2;
          x2 := x1.thd;
          if env.accepts(General, x2, SI) {
            operand[3] := x2;
            if env.t68020 && env.tBitfield { return k; }
          }
        }
      }
      return -1;
    }

    // L801 and L807
    method GetUnit(x0: Rtx, ghost c: Code3, k: int) returns (r: int)
      requires Ready() && Is2(x0, SET) && Is3(x0.right, c) && x0.right.mode == SI && operand[0] == x0.left
      requires env.accepts(General, x0.left, SI)
      requires (k == 187 && c == SIGN_EXTRACT) || (k == 186 && c == ZERO_EXTRACT)
      modifies operand
      ensures operand[0] == old(operand[0])
      ensures r == if Matches(k, x0, env) then k else -1
      ensures r != -1 ==> Holds(operand, r, x0)
    {
      hide Matches;
      hide Extract;
      GetUnitRow(k, c, x0, env);
      var x1 := x0.right;
      var x2 := x1.fst;
      if env.accepts(Nonimmediate, x2, SI) {
        operand[1] := x2;
        x2 := x1.snd;
        if env.accepts(Immediate, x2, SI) {
          operand[2] := x2;
          x2 := x1.thd;
          if env.accepts(Immediate, x2, SI) {
            operand[3] := x2;
            if env.t68020 && env.tBitfield && WholeUnit(operand[1], operand[2], operand[3], env) { return k; }
          }
        }
      }
      return -1;
    }

    // L143 to L1229
    method SiDestination(x0: Rtx) returns (r: int)
      requires Ready() && Sane(env) && Is2(x0, SET) && x0.left.mode == SI
      modifies operand
      ensures OperandForm(x0.left) ==> FirstIn(r, OperandCodes(SI, x0.right), x0, env)
      ensures Is3(x0.left, ZERO_EXTRACT) ==> FirstIn(r, FIELD_CODES, x0, env)
      ensures !OperandForm(x0.left) && !Is3(x0.left, ZERO_EXTRACT) ==> r == -1
      ensures r != -1 ==> Holds(operand, r, x0)
    {
      hide Matches;
      hide Holds;
      hide Rows;
      hide SiSpecial;
      hide ExtractCodes;
      SourceRange(SI, x0, env);
      RowsBelow246(x0);
      NoNegativeCode(x0, env);
      r := SiMoves(x0);
      if r != -1 { return; }
      if !env.accepts(General, x0.left, SI) {
        SiNeedsOperand(x0, env);
        if Is3(x0.left, ZERO_EXTRACT) { r := FieldDestination(x0); }
        return;
      }
      r := SiOperand(x0);
    }

    // L189 and L798
    method SiOperand(x0: Rtx) returns (r: int)
      requires Ready() && Sane(env) && Is2(x0, SET) && x0.left.mode == SI && env.accepts(General, x0.left, SI)
      modifies operand
      ensures FirstIn(r, Codes(Rows(SI, x0.right)) + Special(SI, x0.right) + {246}, x0, env)
      ensures r != -1 ==> Holds(operand, r, x0)
    {
      hide Matches;
      hide Rows;
      hide SiSpecial;
      hide ExtractCodes;
      hide Holds;
      RowsBelow246(x0);
      SiOrder(x0);
      var x1 := x0.left;
      operand[0] := x1;
      r := SiSource(x0);
      if r != -1 { return; }
      operand[0] := x1;
      r := LateSource(x0);
    }

    // L166 to L1246 and L2 to L1232
    method FloatDestination(x0: Rtx, m: Mode) returns (r: int)
      requires Ready() && Sane(env) && Is2(x0, SET) && x0.left.mode == m && (m == SF || m == DF)
      modifies operand
      ensures FirstIn(r, OperandCodes(m, x0.right), x0, env)
      ensures r != -1 ==> OperandForm(x0.left) && Holds(operand, r, x0)
    {
      hide Matches;
      hide Holds;
      hide Rows;
      hide SfSpecial;
      hide DfSpecial;
      SourceRange(m, x0, env);
      RowsBelow248(x0);
      NoNegativeCode(x0, env);
      r := FloatMoves(x0, m);
      if r != -1 { return; }
      if env.accepts(General, x0.left, m) {
        operand[0] := x0.left;
        r := TryRows(x0);
        if r != -1 {
          MultiplyAddRange(m, x0);
          return;
        }
      } else {
        RowsNeedOperand(x0, env);
      }
      r := MultiplyAdd(x0, m);
    }

    method FloatMoves(x0: Rtx, m: Mode) returns (r: int)
      requires Ready() && Sane(env) && Is2(x0, SET) && x0.left.mode == m && (m == SF || m == DF)
      modifies operand
      ensures FirstIn(r, Moves(m), x0, env)
      ensures r != -1 ==> OperandForm(x0.left) && Holds(operand, r, x0)
    {
      hide Matches;
      hide Extract;
      SmallMoveRows(x0, env);
      WideMoveRows(x0, env);
      var x1 := x0.left;
      if m == DF && env.accepts(Push, x1, DF) {
        operand[0] := x1;
        x1 := x0.right;
        if env.accepts(General, x1, DF) { operand[1] := x1; return 0; }
        x1 := x0.left;
      }
      if env.accepts(General, x1, m) {
        operand[0] := x1;
        x1 := x0.right;
        if env.accepts(General, x1, m) {
          operand[1] := x1;
          return if m == SF then 36 else 37;
        }
      }
      return -1;
    }

    // L1245 and L1231
    method MultiplyAdd(x0: Rtx, m: Mode) returns (r: int)
      requires Ready() && Sane(env) && Is2(x0, SET) && x0.left.mode == m && (m == SF || m == DF)
      modifies operand
      ensures FirstIn(r, Special(m, x0.right), x0, env)
      ensures r != -1 ==> OperandForm(x0.left) && Holds(operand, r, x0)
    {
      hide Matches;
      hide Holds;
      MultiplyAddNeedsRegister(m, x0, env);
      var x1 := x0.left;
      if !env.accepts(Register, x1, m) { return -1; }
      operand[0] := x1;
      x1 := x0.right;
      if x1.mode != m { return -1; }
      if Is2(x1, PLUS) || Is2(x1, MINUS) {
        r := SumOrDifference(x0, m);
      } else if Is2(x1, MULT) {
        r := Product(x0, m);
      } else {
        r := -1;
      }
    }

    // L1247 and L1268, L1233 and L1261
    method SumOrDifference(x0: Rtx, m: Mode) returns (r: int)
      requires Ready() && Is2(x0, SET) && (m == SF || m == DF) && x0.right.mode == m
      requires Is2(x0.right, PLUS) || Is2(x0.right, MINUS)
      requires env.accepts(Register, x0.left, m) && operand[0] == x0.left
      modifies operand
      ensures FirstIn(r, Special(m, x0.right), x0, env)
      ensures r != -1 ==> Holds(operand, r, x0)
    {
      hide Matches;
      hide Holds;
      if Is2(x0.right, PLUS) {
        r := FuseLeft(x0, m, PLUS, MULT);
        if r != -1 { return; }
        r := FuseRight(x0, m, PLUS, MULT);
      } else {
        r := FuseRight(x0, m, MINUS, MULT);
        if r != -1 { return; }
        r := FuseLeft(x0, m, MINUS, MULT);
      }
    }

    // L1303 and L1289
    method Product(x0: Rtx, m: Mode) returns (r: int)
      requires Ready() && Is2(x0, SET) && (m == SF || m == DF) && Is2(x0.right, MULT) && x0.right.mode == m
      requires env.accepts(Register, x0.left, m) && operand[0] == x0.left
      modifies operand
      ensures FirstIn(r, if m == SF then {258, 259, 262, 263} else {256, 257, 260, 261}, x0, env)
      ensures r != -1 ==> Holds(operand, r, x0)
    {
      hide Matches;
      hide Holds;
      r := FuseLeft(x0, m, MULT, PLUS);
      if r != -1 { return; }
      r := FuseRight(x0, m, MULT, PLUS);
      if r != -1 { return; }
      r := FuseLeft(x0, m, MULT, MINUS);
      if r != -1 { return; }
      r := FuseRight(x0, m, MULT, MINUS);
    }

    // The inner operation on the left: L1248, L1283, L1304, L1332 and their DFmode twins.
    method FuseLeft(x0: Rtx, m: Mode, c: Code2, inner: Code2) returns (r: int)
      requires Ready() && Is2(x0, SET) && (m == SF || m == DF) && Is2(x0.right, c) && x0.right.mode == m
      requires LeftCode(m, c, inner) != -1 && env.accepts(Register, x0.left, m) && operand[0] == x0.left
      modifies operand
      ensures operand[0] == old(operand[0])
      ensures var k := LeftCode(m, c, inner); r == if Matches(k, x0, env) then k else -1
      ensures r != -1 ==> Holds(operand, r, x0)
    {
      hide Matches;
      hide Extract;
      hide LeftCode;
      LeftRow(m, c, inner, x0, env);
      var x1 := x0.right;
      var x2 := x1.left;
      if Is2(x2, inner) && x2.mode == m {
        var x3 := x2.left;
        if env.accepts(InnerPredicate(c), x3, m) {
          operand[1] := x3;
          x3 := x2.right;
          if env.accepts(General, x3, m) {
            operand[2] := x3;
            x2 := x1.right;
            if env.accepts(General, x2, m) {
              operand[3] := x2;
              if env.tFpa { return LeftCode(m, c, inner); }
            }
          }
        }
      }
      return -1;
    }

    // The inner operation on the right: L1256, L1270, L1312, L1340 and their DFmode twins.
    method FuseRight(x0: Rtx, m: Mode, c: Code2, inner: Code2) returns (r: int)
      requires Ready() && Is2(x0, SET) && (m == SF || m == DF) && Is2(x0.right, c) && x0.right.mode == m
      requires RightCode(m, c, inner) != -1 && env.accepts(Register, x0.left, m) && operand[0] == x0.left
      modifies operand
      ensures operand[0] == old(operand[0])
      ensures var k := RightCode(m, c, inner); r == if Matches(k, x0, env) then k else -1
      ensures r != -1 ==> Holds(operand, r, x0)
    {
      hide Matches;
      hide Extract;
      hide RightCode;
      RightRow(m, c, inner, x0, env);
      var x1 := x0.right;
      var x2 := x1.left;
      if env.accepts(General, x2, m) {
        operand[1] := x2;
        x2 := x1.right;
        if Is2(x2, inner) && x2.mode == m {
          var x3 := x2.left;
          if env.accepts(InnerPredicate(c), x3, m) {
            operand[2] := x3;
            x3 := x2.right;
            if env.accepts(General, x3, m) {
              operand[3] := x3;
              if env.tFpa { return RightCode(m, c, inner); }
            }
          }
        }
      }
      return -1;
    }

    // L158: the switch on the mode of the destination.  A QImode operand is no
    // HImode operand, so the fall-through from recog_3 to L151 ends there.
    method OperandDestination(x0: Rtx) returns (r: int)
      requires Ready() && Sane(env) && Is2(x0, SET)
      modifies operand
      ensures FirstIn(r, LateCodes(x0.left, x0.right), x0, env)
      ensures r != -1 ==> Holds(operand, r, x0)
    {
      hide Matches;
      hide Holds;
      if Is3(x0.left, ZERO_EXTRACT) { FieldModes(x0, env); }
      match x0.left.mode {
        case QI => r := QiDestination(x0);
        case HI => r := HiDestination(x0);
        case SI => r := SiDestination(x0);
        case DI => r := DiDestination(x0);
        case SF => r := FloatDestination(x0, SF);
        case DF => r := FloatDestination(x0, DF);
        case _ => r := -1; NoRows(x0.left.mode, x0.right);
      }
    }

    // L7: the destinations tried before a call
    method EarlyDestination(x0: Rtx) returns (r: int)
      requires Ready() && Sane(env) && Is2(x0, SET)
      modifies operand
      ensures !BothModes(x0, env) ==> FirstIn(r, EarlyCodes(x0.left, x0.right), x0, env)
      ensures BothModes(x0, env) ==> r == 35
      ensures r != -1 ==> Holds(operand, r, x0)
    {
      hide Matches;
      hide Holds;
      hide CcSpecial;
      hide PcCodes;
      hide StrictSpecial;
      BothModesStrict(x0, env);
      r := -1;
      if x0.left == CC0_RTX {
        r := CcDestination(x0);
      } else if Is1(x0.left, STRICT_LOW_PART) {
        r := StrictDestination(x0);
      } else if x0.left == PC_RTX {
        r := PcDestination(x0);
      }
    }

    // recog_6
    method Set(x0: Rtx) returns (r: int)
      requires Ready() && Sane(env) && Is2(x0, SET)
      modifies operand
      ensures Answer(r, x0, env)
      ensures r != -1 ==> Holds(operand, r, x0)
    {
      hide Matches;
      hide Holds;
      hide Extract;
      hide EarlyCodes;
      hide LateCodes;
      if !VoidConstant(x0.left) { SetCandidates(x0, env); } else { NoCandidates(x0.left, x0.right); }
      EarlyRange(x0.left, x0.right);
      BothModesStrict(x0, env);
      CallRow(x0, env);
      if Is2(x0.right, CALL) { CallIsNoSource(x0, env); }
      NoNegativeCode(x0, env);
      r := EarlyDestination(x0);
      if r != -1 { return; }
      r := CallValue(x0);
      if r != -1 { return; }
      r := OperandDestination(x0);
    }

    // ------------------------------------------------------------------------
    // recog_7: a SET followed by something else

    // L19 and L28
    method FloatTest(x0: Rtx, m: Mode, k: int) returns (r: int)
      requires Ready() && SetPair(x0) && x0.elems[0].left == CC0_RTX
      requires (k == 6 && m == SF) || (k == 9 && m == DF)
      modifies operand
      ensures r == if Matches(k, x0, env) then k else -1
      ensures r != -1 ==> Holds(operand, k, x0)
    {
      hide Matches;
      hide Extract;
      FloatTestRow(k, m, x0, env);
      var x1 := x0.elems[0];
      var x2 := x1.right;
      if env.accepts(General, x2, m) {
        operand[0] := x2;
        x1 := x0.elems[1];
        if Is1(x1, CLOBBER) {
          x2 := x1.arg;
          if env.accepts(General, x2, SI) {
            operand[1] := x2;
            if env.tFpa { return k; }
          }
        }
      }
      return -1;
    }

    // L53 and L66
    method FloatCompare(x0: Rtx, m: Mode, k: int) returns (r: int)
      requires Ready() && SetPair(x0) && x0.elems[0].left == CC0_RTX && Is2(x0.elems[0].right, COMPARE)
      requires (k == 15 && m == DF) || (k == 18 && m == SF)
      modifies operand
      ensures r == if Matches(k, x0, env) then k else -1
      ensures r != -1 ==> Holds(operand, k, x0)
    {
      hide Matches;
      hide Extract;
      FloatCompareRow(k, m, x0, env);
      var x1 := x0.elems[0];
      var x2 := x1.right;
      var x3 := x2.left;
      if env.accepts(General, x3, m) {
        operand[0] := x3;
        x3 := x2.right;
        if env.accepts(General, x3, m) {
          operand[1] := x3;
          x1 := x0.elems[1];
          if Is1(x1, CLOBBER) {
            x2 := x1.arg;
            if env.accepts(General, x2, SI) {
              operand[2] := x2;
              if env.tFpa { return k; }
            }
          }
        }
      }
      return -1;
    }

    // L18
    method FloatFlags(x0: Rtx) returns (r: int)
      requires Ready() && SetPair(x0) && x0.elems[0].left == CC0_RTX
      modifies operand
      ensures FirstIn(r, PairCodes(x0), x0, env)
      ensures r != -1 ==> Holds(operand, r, x0)
    {
      hide Matches;
      hide Holds;
      r := FloatTest(x0, SF, 6);
      if r != -1 { return; }
      r := FloatTest(x0, DF, 9);
      if r != -1 { return; }
      if Is2(x0.elems[0].right, COMPARE) {
        r := FloatCompare(x0, DF, 15);
        if r != -1 { return; }
        r := FloatCompare(x0, SF, 18);
      }
    }

    // L1154
    method TableJump(x0: Rtx) returns (r: int)
      requires Ready() && Sane(env) && SetPair(x0) && x0.elems[0].left == PC_RTX
      modifies operand
      ensures r == if Matches(238, x0, env) then 238 else -1
      ensures r != -1 ==> Holds(operand, r, x0)
    {
      hide Matches;
      hide Extract;
      TableJumpRow(x0, env);
      var x1 := x0.elems[0];
      var x2 := x1.right;
      if Is2(x2, PLUS) && x2.mode == SI {
        var x3 := x2.left;
        if x3 == PC_RTX {
          x3 := x2.right;
          if env.accepts(General, x3, HI) {
            operand[0] := x3;
            x1 := x0.elems[1];
            if Is1(x1, USE) {
              x2 := x1.arg;
              if Is1(x2, LABEL_REF) {
                operand[1] := x2.arg;
                return 238;
              }
            }
          }
        }
      }
      return -1;
    }

    // L1174 to L1181: the rest of a decrement-and-branch whose counter is operand 0
    method CountBranch(x0: Rtx, m: Mode) returns (ok: bool)
      requires Ready() && SetPair(x0) && x0.elems[0].left == PC_RTX && Is3(x0.elems[0].right, IF_THEN_ELSE)
      modifies operand
      ensures operand[0] == old(operand[0])
      ensures ok == (CountedJump(x0.elems[0]) && CountDown(x0.elems[1], operand[0], m))
      ensures ok ==> operand[1] == x0.elems[0].right.snd.arg
    {
      hide RtxEqual;
      var x2 := x0.elems[0].right;
      var x3 := x2.snd;
      if !Is1(x3, LABEL_REF) { return false; }
      operand[1] := x3.arg;
      x3 := x2.thd;
      if x3 != PC_RTX { return false; }
      var x1 := x0.elems[1];
      if !Is2(x1, SET) { return false; }
      x2 := x1.left;
      if !RtxEqual(x2, operand[0]) { return false; }
      x2 := x1.right;
      if !(Is2(x2, PLUS) && x2.mode == m) { return false; }
      x3 := x2.left;
      if !RtxEqual(x3, operand[0]) { return false; }
      x3 := x2.right;
      return IsInt(x3, -1);
    }

    // L1170 in HImode and L1189 in SImode
    method Count(x0: Rtx, m: Mode, k: int) returns (r: int)
      requires Ready() && Sane(env) && SetPair(x0) && x0.elems[0].left == PC_RTX
      requires Is3(x0.elems[0].right, IF_THEN_ELSE) && Is2(x0.elems[0].right.fst, NE)
      requires (k == 240 && m == HI) || (k == 241 && m == SI)
      modifies operand
      ensures r == if Matches(k, x0, env) then k else -1
      ensures r != -1 ==> Holds(operand, k, x0)
    {
      hide Matches;
      hide Extract;
      hide RtxEqual;
      hide CountDown;
      hide CountedJump;
      hide CounterLeft;
      CountRow(k, m, x0, env);
      CounterOperand(x0.elems[0], x0.elems[0].right.fst, m, env);
      var ok := Counter(x0.elems[0].right.fst, m);
      if !ok { return -1; }
      ok := CountBranch(x0, m);
      return if ok then k else -1;
    }

    // L1170 to L1173
    method Counter(x3: Rtx, m: Mode) returns (ok: bool)
      requires Ready() && Is2(x3, NE)
      modifies operand
      ensures ok == CounterLeft(x3, m, env)
      ensures ok ==> operand[0] == x3.left.left.left
    {
      var x4 := x3.left;
      if !Is2(x4, COMPARE) { return false; }
      var x5 := x4.left;
      if !(Is2(x5, PLUS) && x5.mode == m) { return false; }
      var x6 := x5.left;
      if !env.accepts(General, x6, m) { return false; }
      operand[0] := x6;
      x6 := x5.right;
      if !IsInt(x6, -1) { return false; }
      x5 := x4.right;
      if !IsInt(x5, -1) { return false; }
      x4 := x3.right;
      return IsInt(x4, 0);
    }

    // L1206
    method CountNonnegative(x0: Rtx) returns (r: int)
      requires Ready() && Sane(env) && SetPair(x0) && x0.elems[0].left == PC_RTX
      requires Is3(x0.elems[0].right, IF_THEN_ELSE) && Is2(x0.elems[0].right.fst, GE)
      modifies operand
      ensures r == if Matches(242, x0, env) then 242 else -1
      ensures r != -1 ==> Holds(operand, 242, x0)
    {
      hide Matches;
      hide Extract;
      hide RtxEqual;
      hide CountDown;
      CountNonnegativeRow(x0, env);
      var x3 := x0.elems[0].right.fst;
      var x4 := x3.left;
      if !(Is2(x4, PLUS) && x4.mode == SI) { return -1; }
      var x5 := x4.left;
      if !env.accepts(General, x5, SI) { return -1; }
      operand[0] := x5;
      x5 := x4.right;
      if !IsInt(x5, -1) { return -1; }
      x4 := x3.right;
      if !IsInt(x4, 0) { return -1; }
      var ok := CountBranch(x0, SI);
      if ok && env.nonneg { return 242; }
      return -1;
    }

    // L1153
    method PcPair(x0: Rtx) returns (r: int)
      requires Ready() && Sane(env) && SetPair(x0) && x0.elems[0].left == PC_RTX
      modifies operand
      ensures FirstIn(r, PcPairCodes(x0.elems[0].right), x0, env)
      ensures r != -1 ==> Holds(operand, r, x0)
    {
      hide Matches;
      hide Holds;
      var x2 := x0.elems[0].right;
      if Is2(x2, PLUS) && x2.mode == SI {
        r := TableJump(x0);
      } else if Is3(x2, IF_THEN_ELSE) {
        var x3 := x2.fst;
        if Is2(x3, NE) {
          r := Count(x0, HI, 240);
          if r != -1 { return; }
          r := Count(x0, SI, 241);
        } else if Is2(x3, GE) {
          r := CountNonnegative(x0);
        } else {
          r := -1;
        }
      } else {
        r := -1;
      }
    }

    // L532 (c = DIV) and L543 (c = UDIV)
    method Divide(x0: Rtx, k: int, ghost c: Code2, q: Code2) returns (r: int)
      requires Ready() && SetPair(x0) && Is2(x0.elems[0].right, c) && x0.elems[0].right.mode == SI
      requires env.accepts(General, x0.elems[0].left, SI) && operand[0] == x0.elems[0].left
      requires (k == 130 && c == DIV && q == MOD) || (k == 131 && c == UDIV && q == UMOD)
      modifies operand
      ensures r == if Matches(k, x0, env) then k else -1
      ensures r != -1 ==> Holds(operand, k, x0)
    {
      hide Matches;
      hide Extract;
      hide RtxEqual;
      DivModRow(k, c, q, x0, env);
      var x1 := x0.elems[0];
      var x2 := x1.right;
      var x3 := x2.left;
      if !env.accepts(General, x3, SI) { return -1; }
      operand[1] := x3;
      x3 := x2.right;
      if !env.accepts(General, x3, SI) { return -1; }
      operand[2] := x3;
      x1 := x0.elems[1];
      if !Is2(x1, SET) { return -1; }
      x2 := x1.left;
      if !env.accepts(General, x2, SI) { return -1; }
      operand[3] := x2;
      x2 := x1.right;
      if !(Is2(x2, q) && x2.mode == SI) { return -1; }
      x3 := x2.left;
      if !RtxEqual(x3, operand[1]) { return -1; }
      x3 := x2.right;
      if !RtxEqual(x3, operand[2]) { return -1; }
      return if env.t68020 then k else -1;
    }

    // L530
    method DividePair(x0: Rtx) returns (r: int)
      requires Ready() && Sane(env) && SetPair(x0)
      modifies operand
      ensures FirstIn(r, {130, 131}, x0, env)
      ensures r != -1 ==> Holds(operand, r, x0)
    {
      hide Matches;
      hide Holds;
      DivModCodes(x0, env);
      var x1 := x0.elems[0];
      var x2 := x1.left;
      if !env.accepts(General, x2, SI) { return -1; }
      operand[0] := x2;
      x2 := x1.right;
      if x2.mode != SI { return -1; }
      if Is2(x2, DIV) {
        r := Divide(x0, 130, DIV, MOD);
      } else if Is2(x2, UDIV) {
        r := Divide(x0, 131, UDIV, UMOD);
      } else {
        r := -1;
      }
    }

    method Pair(x0: Rtx) returns (r: int)
      requires Ready() && Sane(env) && SetPair(x0)
      modifies operand
      ensures IsFirst(r, x0, env)
      ensures r != -1 ==> Holds(operand, r, x0)
    {
      hide Matches;
      hide Holds;
      hide PcPairCodes;
      PairIndex(x0, env);
      var x2 := x0.elems[0].left;
      r := -1;
      if x2 == CC0_RTX {
        r := FloatFlags(x0);
      } else if x2 == PC_RTX {
        r := PcPair(x0);
      }
      if r != -1 { return; }
      r := DividePair(x0);
    }

    // recog: the answer, for every rtx, with no assumption about it.
    method Recognise(x0: Rtx) returns (r: int)
      requires Ready() && Sane(env)
      modifies operand
      ensures Answer(r, x0, env)
      ensures r != -1 ==> Holds(operand, r, x0)
    {
      hide Matches;
      OtherRoots(x0, env);
      BothModesStrict(x0, env);
      if Is2(x0, SET) {
        r := Set(x0);
      } else if x0.Parallel? && |x0.elems| == 2 {
        if Is2(x0.elems[0], SET) { r := Pair(x0); } else { r := -1; }
      } else if Is2(x0, CALL) {
        r := Call(x0);
      } else if IsInt(x0, 0) {
        r := 245;
      } else {
        r := -1;
      }
    }

    // L1219
    method Call(x0: Rtx) returns (r: int)
      requires Ready() && Is2(x0, CALL)
      modifies operand
      ensures IsFirst(r, x0, env)
      ensures r != -1 ==> Holds(operand, r, x0)
    {
      hide Matches;
      hide Extract;
      OtherRoots(x0, env);
      CallOnlyRow(x0, env);
      var x1 := x0.left;
      if env.accepts(General, x1, QI) {
        operand[0] := x1;
        x1 := x0.right;
        if env.accepts(General, x1, SI) { operand[1] := x1; return 243; }
      }
      return -1;
    }
  }
}
