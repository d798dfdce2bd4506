// The i486 instruction recogniser (cmd/gcc/i486.gen/insn-recog.c).
//
// The goto-driven search is written with structured control flow: a branch
// that fails falls through to the alternative its goto names.  recog_operand is
// the global array the search overwrites as it goes.

module I486Recog {
  import opened Rtl
  import opened Patterns
  import opened I486Description
  import opened I486Index

  const MAX_RECOG_OPERANDS := 7

  // recog_operand holds what extract_k would put there.
  ghost predicate Holds(operand: array<Rtx>, k: int, x: Rtx)
    reads operand
  {
    var e := Extract(k, x);
    |e| <= operand.Length && forall i | 0 <= i < |e| :: operand[i] == e[i]
  }

  // What recog answers: the first match, except that codes 59, 66 and 67 are found
  // whatever the mode of the source, and that a constant destination leaves only
  // the call pattern.
  ghost predicate Answer(r: int, x: Rtx, env: Env) {
    && (!LooseMode(x) && !ConstantDestination(x) ==> IsFirst(r, x, env))
    && (LooseMode(x) ==> FirstIn(r, {59, 66, 67}, Tighten(x), env))
    && (ConstantDestination(x) ==> r == if Matches(140, x, env) then 140 else -1)
  }

  // A pair read as a 32-bit multiplication or division that it is not, and a
  // constant destination that some pattern other than the call admits.
  ghost predicate Misread(x: Rtx, env: Env) {
    || (LooseMode(x) && exists k :: k in {59, 66, 67} && Matches(k, Tighten(x), env))
    || (ConstantDestination(x) && exists k :: k != 140 && Matches(k, x, env))
  }

  // The answer is the first match exactly when x is not misread, and nothing is
  // misread but a constant destination and a pair of the wrong mode.
  lemma RightUnlessMisread(r: int, x: Rtx, env: Env)
    requires Sane(env) && Answer(r, x, env)
    ensures IsFirst(r, x, env) <==> !Misread(x, env)
    ensures !ConstantDestination(x) && !LooseMode(x) ==> IsFirst(r, x, env)
  {
    hide Matches;
    NoNegativeCode(x, env);
    if LooseMode(x) {
      PairCodes(x, env);
      assert forall k :: !Matches(k, x, env);
    } else if ConstantDestination(x) {
      OnlyCall(x, env);
    }
  }

  // Code 140 stands last among the templates of a SET.
  lemma OnlyCall(x: Rtx, env: Env)
    requires Sane(env) && Is2(x, SET)
    ensures forall k :: Matches(k, x, env) ==> k <= 140
    ensures Matches(140, x, env) ==> forall k :: k != 140 ==> !Matches(k, x, env)
  {
    hide Condition;
    hide DupsAgree;
    CallRow(x, env);
    forall k | Matches(k, x, env)
      ensures k <= 140
      ensures Matches(140, x, env) ==> k == 140
    {
      RootCode(k, x, env);
      if Matches(140, x, env) { CallSource(k, x, env); }
    }
  }

  // Two insns that are misread wherever the operands they name are accepted.
  lemma ConstantDestinationMisread(env: Env)
    requires Sane(env) && env.accepts(General, ConstInt(0), SI)
    ensures Misread(X2(SET, VOID, ConstInt(0), ConstInt(0)), env)
  {
    var x := X2(SET, VOID, ConstInt(0), ConstInt(0));
    MoveShape(General, SI, x, env);
    assert Matches(14, x, env);
  }

  lemma LooseModeMisread(env: Env)
    requires Sane(env) && forall n | 0 <= n < 4 :: env.accepts(General, Reg(SI, n), SI)
    ensures Misread(Parallel(VOID, [
        X2(SET, VOID, Reg(SI, 0), X2(DIV, HI, Reg(SI, 1), Reg(SI, 2))),
        X2(SET, VOID, Reg(SI, 3), X2(MOD, SI, Reg(SI, 1), Reg(SI, 2)))]), env)
  {
    var x := Parallel(VOID, [
      X2(SET, VOID, Reg(SI, 0), X2(DIV, HI, Reg(SI, 1), Reg(SI, 2))),
      X2(SET, VOID, Reg(SI, 3), X2(MOD, SI, Reg(SI, 1), Reg(SI, 2)))]);
    DivModRow(66, DIV, MOD, Tighten(x), env);
    assert Matches(66, Tighten(x), env);
  }

  class Recog {
    const operand: array<Rtx>
    const env: Env

    constructor (env: Env)
      ensures this.env == env && operand.Length == MAX_RECOG_OPERANDS && fresh(operand)
    {
      this.env := env;
      operand := new Rtx[MAX_RECOG_OPERANDS](_ => CC0_RTX);
    }

    predicate Ready() { operand.Length == MAX_RECOG_OPERANDS }

    // A source with one operand, tried as code k.
    method General1(x0: Rtx, k: int, ghost d: Mode, a: Mode, flag: bool) returns (r: int)
      requires Ready() && Is2(x0, SET) && operand[0] == x0.left
      requires env.accepts(General, x0.left, d) && x0.right.X1?
      requires Pattern(k) == Unary(d, x0.right.code1, x0.right.mode, a)
      requires DupsAgree(k, x0) && flag == Condition(k, env)
      requires Extract(k, x0) == [x0.left, x0.right.arg]
      modifies operand
      ensures r == if Matches(k, x0, env) then k else -1
      ensures r != -1 ==> Holds(operand, k, x0)
    {
      UnaryShape(d, x0.right.code1, x0.right.mode, a, x0, env);
      var x2 := x0.right.arg;
      if env.accepts(General, x2, a) {
        operand[1] := x2;
        if flag { return k; }
      }
      return -1;
    }

    // A source with two operands, tried as code k.
    method General2(x0: Rtx, k: int, ghost d: Mode, a: Mode, flag: bool) returns (r: int)
      requires Ready() && Is2(x0, SET) && operand[0] == x0.left
      requires env.accepts(General, x0.left, d) && x0.right.X2?
      requires Pattern(k) == Binary(d, x0.right.code2, x0.right.mode, a, a)
      requires DupsAgree(k, x0) && flag == Condition(k, env)
      requires Extract(k, x0) == [x0.left, x0.right.left, x0.right.right]
      modifies operand
      ensures r == if Matches(k, x0, env) then k else -1
      ensures r != -1 ==> Holds(operand, k, x0)
    {
      BinaryShape(d, x0.right.code2, x0.right.mode, a, a, x0, env);
      var x1 := x0.right;
      var x2 := x1.left;
      if env.accepts(General, x2, a) {
        operand[1] := x2;
        x2 := x1.right;
        if env.accepts(General, x2, a) {
          operand[2] := x2;
          if flag { return k; }
        }
      }
      return -1;
    }

    // Labels L181-L222 of recog_3 and their QImode twins in recog_2: an addition or
    // subtraction, as code inc when the second operand is (const_int 1), else as
    // code full.
    method IncOrFull(x0: Rtx, ghost d: Mode, inc: int, full: int) returns (r: int)
      requires Ready() && Is2(x0, SET) && operand[0] == x0.left
      requires env.accepts(General, x0.left, d) && x0.right.X2? && d == x0.right.mode
      requires Pattern(inc) == BinaryConst(d, x0.right.code2, 1)
      requires Pattern(full) == Binary(d, x0.right.code2, d, d, d)
      requires 0 <= inc < full
      requires DupsAgree(inc, x0) && DupsAgree(full, x0) && Condition(inc, env) && Condition(full, env)
      requires Extract(inc, x0) == [x0.left, x0.right.left]
      requires Extract(full, x0) == [x0.left, x0.right.left, x0.right.right]
      modifies operand
      ensures FirstIn(r, {inc, full}, x0, env)
      ensures r != -1 ==> Holds(operand, r, x0)
    {
      BinaryConstShape(d, x0.right.code2, 1, x0, env);
      BinaryShape(d, x0.right.code2, d, d, d, x0, env);
      var x1 := x0.right;
      var x2 := x1.left;
      if env.accepts(General, x2, x1.mode) {
        operand[1] := x2;
        x2 := x1.right;
        if IsInt(x2, 1) { return inc; }
        if env.accepts(General, x2, x1.mode) { operand[2] := x2; return full; }
      }
      return -1;
    }

    // A destination operand of mode m and a source with a single candidate code.
    method SoleSource(x0: Rtx, m: Mode) returns (r: int)
      requires Ready() && Is2(x0, SET) && env.accepts(General, x0.left, m) && operand[0] == x0.left
      modifies operand
      ensures var k := SoleCode(m, x0.right); r == if k != -1 && Matches(k, x0, env) then k else -1
      ensures r != -1 ==> Holds(operand, r, x0)
    {
      hide SoleCode;
      var x1 := x0.right;
      var k := SoleCode(m, x1);
      if k == -1 { return -1; }
      SoleCodeRow(m, x1, x0, env);
      if x1.X1? {
        r := General1(x0, k, m, ArgMode(m, x1.code1), FlagFor(m, env));
      } else {
        r := General2(x0, k, m, m, FlagFor(m, env));
      }
    }

    // The two moves that open the alternatives of a destination of mode m.
    method MoveInto(x0: Rtx, m: Mode, push: int, full: int) returns (r: int)
      requires Ready() && Is2(x0, SET) && 0 <= push < full
      requires Pattern(push) == Move(Push, m) && Pattern(full) == Move(General, m)
      requires DupsAgree(push, x0) && DupsAgree(full, x0) && Condition(push, env) && Condition(full, env)
      requires Extract(push, x0) == Extract(full, x0) == [x0.left, x0.right]
      modifies operand
      ensures FirstIn(r, {push, full}, x0, env)
      ensures r != -1 ==> Holds(operand, r, x0)
      ensures r == -1 && env.accepts(General, x0.left, m) ==> operand[0] == x0.left
    {
      hide Pattern;
      MoveShape(Push, m, x0, env);
      MoveShape(General, m, x0, env);
      var x1 := x0.left;
      if env.accepts(Push, x1, m) {
        operand[0] := x1;
        x1 := x0.right;
        if env.accepts(General, x1, m) { operand[1] := x1; return push; }
        x1 := x0.left;
      }
      if env.accepts(General, x1, m) {
        operand[0] := x1;
        x1 := x0.right;
        if env.accepts(General, x1, m) { operand[1] := x1; return full; }
      }
      return -1;
    }

    // A unary source whose operand is tried in mode a as code ka, then in mode b as kb.
    method TwoModes(x0: Rtx, ghost d: Mode, a: Mode, ka: int, b: Mode, kb: int) returns (r: int)
      requires Ready() && Is2(x0, SET) && operand[0] == x0.left && 0 <= ka < kb
      requires env.accepts(General, x0.left, d) && x0.right.X1?
      requires Pattern(ka) == Unary(d, x0.right.code1, x0.right.mode, a)
      requires Pattern(kb) == Unary(d, x0.right.code1, x0.right.mode, b)
      requires DupsAgree(ka, x0) && DupsAgree(kb, x0) && Condition(ka, env) && Condition(kb, env)
      requires Extract(ka, x0) == Extract(kb, x0) == [x0.left, x0.right.arg]
      modifies operand
      ensures FirstIn(r, {ka, kb}, x0, env)
      ensures r != -1 ==> Holds(operand, r, x0)
    {
      hide Pattern;
      UnaryShape(d, x0.right.code1, x0.right.mode, a, x0, env);
      UnaryShape(d, x0.right.code1, x0.right.mode, b, x0, env);
      var x2 := x0.right.arg;
      if env.accepts(General, x2, a) { operand[1] := x2; return ka; }
      if env.accepts(General, x2, b) { operand[1] := x2; return kb; }
      return -1;
    }

    // recog_2, L489-L535: store the flag a comparison left in cc0.
    method StoreFlagSource(x0: Rtx) returns (r: int)
      requires Ready() && Is2(x0, SET) && env.accepts(General, x0.left, QI) && operand[0] == x0.left
      requires x0.right.X2? && StoreFlagCode(x0.right.code2) != -1
      ensures var k := StoreFlagCode(x0.right.code2); r == if Matches(k, x0, env) then k else -1
      ensures r != -1 ==> Holds(operand, r, x0)
    {
      hide Matches;
      hide StoreFlagCode;
      StoreFlagRow(x0.right.code2, x0, env);
      var x1 := x0.right;
      var x2 := x1.left;
      if x2 == CC0_RTX {
        x2 := x1.right;
        if IsInt(x2, 0) { return StoreFlagCode(x1.code2); }
      }
      return -1;
    }

    // recog_2, L123: a QImode destination whose moves have failed.
    method QiSource(x0: Rtx) returns (r: int)
      requires Ready() && Is2(x0, SET) && env.accepts(General, x0.left, QI) && operand[0] == x0.left
      modifies operand
      ensures FirstIn(r, SourceCodes(QI, x0.right), x0, env)
      ensures r != -1 ==> Holds(operand, r, x0)
    {
      hide Matches;
      hide Shape;
      hide Pattern;
      hide DupsAgree;
      hide Condition;
      hide Extract;
      QiTruncateText(x0, env);
      QiStepText(45, 46, PLUS, x0, env);
      QiStepText(52, 53, MINUS, x0, env);
      NoNegativeCode(x0, env);
      var x1 := x0.right;
      if Is1(x1, TRUNCATE) && x1.mode == QI {
        r := TwoModes(x0, QI, SI, 29, HI, 30);
      } else if Is2(x1, PLUS) && x1.mode == QI {
        r := IncOrFull(x0, QI, 45, 46);
      } else if Is2(x1, MINUS) && x1.mode == QI {
        r := IncOrFull(x0, QI, 52, 53);
      } else if x1.X2? && StoreFlagCode(x1.code2) != -1 {
        r := StoreFlagSource(x0);
      } else {
        r := SoleSource(x0, QI);
      }
    }

    // recog_3, L131: an HImode destination whose moves have failed.
    method HiSource(x0: Rtx) returns (r: int)
      requires Ready() && Is2(x0, SET) && env.accepts(General, x0.left, HI) && operand[0] == x0.left
      modifies operand
      ensures FirstIn(r, SourceCodes(HI, x0.right), x0, env)
      ensures r != -1 ==> Holds(operand, r, x0)
    {
      NoNegativeCode(x0, env);
      var x1 := x0.right;
      if Is2(x1, PLUS) && x1.mode == HI {
        r := IncOrFull(x0, HI, 43, 44);
      } else if Is2(x1, MINUS) && x1.mode == HI {
        r := IncOrFull(x0, HI, 50, 51);
      } else {
        hide Matches;
        r := SoleSource(x0, HI);
      }
    }

    // recog_3, L105-L117: inc and dec of an SImode destination.
    method SiStep(x0: Rtx) returns (r: int)
      requires Ready() && Is2(x0, SET) && env.accepts(General, x0.left, SI) && operand[0] == x0.left
      modifies operand
      ensures FirstIn(r, SourceCodes(SI, x0.right) * {25, 26, 27}, x0, env)
      ensures r != -1 ==> Holds(operand, r, x0)
    {
      hide Matches;
      hide Shape;
      hide BinaryConst;
      BinaryConstShape(SI, PLUS, 1, x0, env);
      BinaryConstShape(SI, PLUS, -1, x0, env);
      BinaryConstShape(SI, MINUS, 1, x0, env);
      SiStepRows(x0, env);
      var x1 := x0.right;
      if x1.mode != SI { return -1; }
      if Is2(x1, PLUS) {
        var x2 := x1.left;
        if env.accepts(General, x2, SI) {
          operand[1] := x2;
          x2 := x1.right;
          if !Is0(x2, CONST_INT) { return -1; }
          if IsInt(x2, 1) { return 25; }
          if IsInt(x2, -1) { return 26; }
        }
      } else if Is2(x1, MINUS) {
        var x2 := x1.left;
        if env.accepts(General, x2, SI) {
          operand[1] := x2;
          x2 := x1.right;
          if IsInt(x2, 1) { return 27; }
        }
      }
      return -1;
    }

    // recog_3, L119-L120: load effective address.
    method SiAddress(x0: Rtx) returns (r: int)
      requires Ready() && Is2(x0, SET)
      modifies operand
      ensures r == if Matches(28, x0, env) then 28 else -1
      ensures r != -1 ==> Holds(operand, r, x0)
    {
      var x1 := x0.left;
      if env.accepts(Register, x1, SI) {
        operand[0] := x1;
        x1 := x0.right;
        if env.accepts(Address, x1, QI) { operand[1] := x1; return 28; }
      }
      return -1;
    }

    // recog_3, L136-L156: the extensions to SImode.
    method SiExtend(x0: Rtx) returns (r: int)
      requires Ready() && Is2(x0, SET) && env.accepts(General, x0.left, SI) && operand[0] == x0.left
      requires x0.right.mode == SI && (Is1(x0.right, ZERO_EXTEND) || Is1(x0.right, SIGN_EXTEND))
      modifies operand
      ensures FirstIn(r, SourceCodes(SI, x0.right), x0, env)
      ensures r != -1 ==> Holds(operand, r, x0)
    {
      hide Matches;
      ExtendRows(x0, env);
      if Is1(x0.right, ZERO_EXTEND) {
        r := TwoModes(x0, SI, HI, 32, QI, 34);
      } else {
        r := TwoModes(x0, SI, HI, 35, QI, 37);
      }
    }

    // recog_3, L135: the remaining sources of an SImode destination.
    method SiSource(x0: Rtx) returns (r: int)
      requires Ready() && Is2(x0, SET) && env.accepts(General, x0.left, SI) && operand[0] == x0.left
      modifies operand
      ensures FirstIn(r, SourceCodes(SI, x0.right) - {25, 26, 27}, x0, env)
      ensures r != -1 ==> Holds(operand, r, x0)
    {
      hide Matches;
      NoNegativeCode(x0, env);
      var x1 := x0.right;
      if x1.mode != SI { return -1; }
      if Is1(x1, ZERO_EXTEND) || Is1(x1, SIGN_EXTEND) {
        r := SiExtend(x0);
      } else {
        r := SoleSource(x0, SI);
      }
    }

    // recog_3, L80: the switch on the mode of the destination.
    method OperandDestination(x0: Rtx) returns (r: int)
      requires Ready() && Sane(env) && Is2(x0, SET)
      modifies operand
      ensures FirstIn(r, OperandCodes(x0), x0, env)
      ensures r != -1 ==> Holds(operand, r, x0)
    {
      match x0.left.mode {
        case QI => r := QiDestination(x0);
        case HI => r := HiDestination(x0);
        case SI => r := SiDestination(x0);
        case DI => r := MoveInto(x0, DI, 23, 24); NoNegativeCode(x0, env); hide Matches;
        case SF => r := FloatDestination(x0, SF, 19, 20);
        case DF => r := FloatDestination(x0, DF, 21, 22);
        case _ => r := -1; NoNegativeCode(x0, env); hide Matches;
      }
    }

    method QiDestination(x0: Rtx) returns (r: int)
      requires Ready() && Sane(env) && Is2(x0, SET) && x0.left.mode == QI
      modifies operand
      ensures FirstIn(r, OperandCodes(x0), x0, env)
      ensures r != -1 ==> Holds(operand, r, x0)
    {
      hide Matches;
      hide SourceCodes;
      r := MoveInto(x0, QI, 17, 18);
      SourceRange(x0, env);
      if r != -1 { return; }
      if env.accepts(General, x0.left, QI) {
        r := QiSource(x0);
      } else {
        NoSource(x0, env);
      }
    }

    method HiDestination(x0: Rtx) returns (r: int)
      requires Ready() && Sane(env) && Is2(x0, SET) && x0.left.mode == HI
      modifies operand
      ensures FirstIn(r, OperandCodes(x0), x0, env)
      ensures r != -1 ==> Holds(operand, r, x0)
    {
      hide Matches;
      hide SourceCodes;
      r := MoveInto(x0, HI, 15, 16);
      SourceRange(x0, env);
      if r != -1 { return; }
      if env.accepts(General, x0.left, HI) {
        r := HiSource(x0);
      } else {
        NoSource(x0, env);
      }
    }

    method FloatDestination(x0: Rtx, m: Mode, push: int, full: int) returns (r: int)
      requires Ready() && Sane(env) && Is2(x0, SET) && x0.left.mode == m
      requires (m == SF && push == 19 && full == 20) || (m == DF && push == 21 && full == 22)
      modifies operand
      ensures FirstIn(r, OperandCodes(x0), x0, env)
      ensures r != -1 ==> Holds(operand, r, x0)
    {
      NoNegativeCode(x0, env);
      r := MoveInto(x0, m, push, full);
      SourceRange(x0, env);
      hide Matches;
      hide SourceCodes;
      if r != -1 { return; }
      if env.accepts(General, x0.left, m) {
        r := SoleSource(x0, m);
      } else {
        NoSource(x0, env);
      }
    }

    method SiDestination(x0: Rtx) returns (r: int)
      requires Ready() && Sane(env) && Is2(x0, SET) && x0.left.mode == SI
      modifies operand
      ensures FirstIn(r, OperandCodes(x0), x0, env)
      ensures r != -1 ==> Holds(operand, r, x0)
    {
      hide Matches;
      hide SourceCodes;
      r := MoveInto(x0, SI, 13, 14);
      SourceRange(x0, env);
      if r != -1 { return; }
      if env.accepts(General, x0.left, SI) {
        operand[0] := x0.left;
        r := SiStep(x0);
        if r != -1 { return; }
      } else {
        NoSource(x0, env);
      }
      r := SiAfterStep(x0);
    }

    // recog_3, L119 onwards.
    method SiAfterStep(x0: Rtx) returns (r: int)
      requires Ready() && Sane(env) && Is2(x0, SET) && x0.left.mode == SI
      modifies operand
      ensures FirstIn(r, {28} + (SourceCodes(SI, x0.right) - {25, 26, 27}), x0, env)
      ensures r != -1 ==> Holds(operand, r, x0)
    {
      hide Matches;
      hide SourceCodes;
      var x1 := x0.left;
      SourceRange(x0, env);
      r := SiAddress(x0);
      if r != -1 { return; }
      if env.accepts(General, x1, SI) {
        operand[0] := x1;
        r := SiSource(x0);
      } else {
        NoSource(x0, env);
      }
    }

    // recog_3, L2-L66: comparisons and tests that set cc0.
    method CcDestination(x0: Rtx) returns (r: int)
      requires Ready() && Sane(env) && Is2(x0, SET) && x0.left == CC0_RTX
      modifies operand
      ensures FirstIn(r, CcCodes(x0.right), x0, env)
      ensures r != -1 ==> Holds(operand, r, x0)
    {
      hide Matches;
      hide Holds;
      TestRows(x0, env);
      r := CcTest(x0);
      if r != -1 { return; }
      var x1 := x0.right;
      if Is2(x1, COMPARE) {
        r := CcCompare(x0);
      } else if Is2(x1, AND) {
        hide Extract;
        r := -1;
        if x1.mode == SI {
          r := CcBinary(x0, SI, 10);
        } else if x1.mode == HI {
          r := CcBinary(x0, HI, 11);
        } else if x1.mode == QI {
          r := CcBinary(x0, QI, 12);
        }
      } else {
        r := -1;
      }
    }

    // recog_3, L2-L8: a value tested against zero.
    method CcTest(x0: Rtx) returns (r: int)
      requires Ready() && Is2(x0, SET) && x0.left == CC0_RTX
      modifies operand
      ensures FirstIn(r, {0, 1, 2}, x0, env)
      ensures r != -1 ==> Holds(operand, r, x0)
    {
      hide Matches;
      hide Extract;
      TestRows(x0, env);
      var x1 := x0.right;
      if env.accepts(General, x1, SI) { operand[0] := x1; return 0; }
      if env.accepts(General, x1, HI) { operand[0] := x1; return 1; }
      if env.accepts(General, x1, QI) { operand[0] := x1; return 2; }
      return -1;
    }

    // recog_3, L24-L35: the operands of a comparison, in SImode, HImode, QImode.
    method CcCompare(x0: Rtx) returns (r: int)
      requires Ready() && Is2(x0, SET) && x0.left == CC0_RTX && Is2(x0.right, COMPARE)
      modifies operand
      ensures FirstIn(r, {5, 6, 7}, x0, env)
      ensures r != -1 ==> Holds(operand, r, x0)
    {
      hide Matches;
      CompareRows(x0, env);
      r := CcBinary(x0, SI, 5);
      if r != -1 { return; }
      r := CcBinary(x0, HI, 6);
      if r != -1 { return; }
      r := CcBinary(x0, QI, 7);
    }

    method CcBinary(x0: Rtx, m: Mode, k: int) returns (r: int)
      requires Ready() && Is2(x0, SET) && x0.left == CC0_RTX && x0.right.X2?
      requires Matches(k, x0, env) <==>
          env.accepts(General, x0.right.left, m) && env.accepts(General, x0.right.right, m)
      requires Extract(k, x0) == [x0.right.left, x0.right.right]
      modifies operand
      ensures r == if Matches(k, x0, env) then k else -1
      ensures r != -1 ==> Holds(operand, k, x0)
    {
      hide Matches;
      var x1 := x0.right;
      var x2 := x1.left;
      if env.accepts(General, x2, m) {
        operand[0] := x2;
        x2 := x1.right;
        if env.accepts(General, x2, m) { operand[1] := x2; return k; }
      }
      return -1;
    }

    // recog_1 and recog_3, L538-L719: jumps.
    method PcDestination(x0: Rtx) returns (r: int)
      requires Ready() && Sane(env) && Is2(x0, SET) && x0.left == PC_RTX
      modifies operand
      ensures FirstIn(r, PcCodes(x0.right), x0, env)
      ensures r != -1 ==> Holds(operand, r, x0)
    {
      var x1 := x0.right;
      if Is3(x1, IF_THEN_ELSE) {
        r := ConditionalJump(x0);
      } else if Is1(x1, LABEL_REF) {
        operand[0] := x1.arg;
        r := 137;
      } else {
        r := -1;
      }
    }

    method ConditionalJump(x0: Rtx) returns (r: int)
      requires Ready() && Sane(env) && Is2(x0, SET) && x0.left == PC_RTX && Is3(x0.right, IF_THEN_ELSE)
      modifies operand
      ensures FirstIn(r, PcCodes(x0.right), x0, env)
      ensures r != -1 ==> Holds(operand, r, x0)
    {
      var x1 := x0.right;
      var x2 := x1.fst;
      if !x2.X2? || JumpCode(x2.code2) == -1 { return -1; }
      JumpRow(x2.code2, x0, env);
      InvertedJumpRow(x2.code2, x0, env);
      hide Matches;
      hide JumpCode;
      hide InvertedJumpCode;
      if x2.left != CC0_RTX { return -1; }
      if !IsInt(x2.right, 0) { return -1; }
      var c := x2.code2;
      x2 := x1.snd;
      if Is1(x2, LABEL_REF) {
        operand[0] := x2.arg;
        x2 := x1.thd;
        if x2 == PC_RTX { return JumpCode(c); }
        return -1;
      }
      if x2 == PC_RTX {
        x2 := x1.thd;
        if Is1(x2, LABEL_REF) {
          operand[0] := x2.arg;
          return InvertedJumpCode(c);
        }
      }
      return -1;
    }

    // recog_3, L732-L734: a call whose value is used.
    method CallValue(x0: Rtx) returns (r: int)
      requires Ready() && Sane(env) && Is2(x0, SET)
      modifies operand
      ensures r == if Matches(140, x0, env) then 140 else -1
      ensures r != -1 ==> Holds(operand, r, x0)
    {
      hide Matches;
      CallRow(x0, env);
      operand[0] := x0.left;
      var x1 := x0.right;
      if Is2(x1, CALL) {
        var x2 := x1.left;
        if env.accepts(Indirect, x2, QI) {
          operand[1] := x2;
          x2 := x1.right;
          if env.accepts(General, x2, SI) { operand[2] := x2; return 140; }
        }
      }
      return -1;
    }

    // recog_3
    method Recog3(x0: Rtx) returns (r: int)
      requires Ready() && Sane(env) && Is2(x0, SET)
      modifies operand
      ensures !VoidConstant(x0.left) ==> IsFirst(r, x0, env)
      ensures VoidConstant(x0.left) ==> r == if Matches(140, x0, env) then 140 else -1
      ensures r != -1 ==> Holds(operand, r, x0)
    {
      hide Matches;
      hide Holds;
      hide CcCodes;
      hide PcCodes;
      hide OperandCodes;
      if !VoidConstant(x0.left) { SetIndexAll(x0, env); }
      if Is2(x0.right, CALL) { CallIsNoSource(x0, env); }
      NoNegativeCode(x0, env);
      FlagRange(x0.right);
      OperandCodesRange(x0);
      r := -1;
      if x0.left == CC0_RTX {
        r := CcDestination(x0);
      } else if x0.left == PC_RTX {
        r := PcDestination(x0);
      }
      if r != -1 { return; }
      r := CallValue(x0);
      if r != -1 { return; }
      r := OperandDestination(x0);
    }

    // recog, L13-L20: floating-point tests.
    method FloatTest(x0: Rtx, m: Mode, k: int) returns (r: int)
      requires Ready() && SetPair(x0)
      requires Matches(k, x0, env) <==>
          env.accepts(General, x0.elems[0].right, m) && ClobbersReg(x0.elems[1], SI, 0) && env.t80387
      requires Extract(k, x0) == [x0.elems[0].right]
      modifies operand
      ensures r == if Matches(k, x0, env) then k else -1
      ensures r != -1 ==> Holds(operand, k, x0)
    {
      hide Matches;
      var x1 := x0.elems[0];
      var x2 := x1.right;
      if env.accepts(General, x2, m) {
        operand[0] := x2;
        x1 := x0.elems[1];
        if Is1(x1, CLOBBER) {
          x2 := x1.arg;
          if x2 == Reg(SI, 0) {
            if env.t80387 { return k; }
          }
        }
      }
      return -1;
    }

    // recog, L40-L51: floating-point comparisons.
    method FloatCompare(x0: Rtx, m: Mode, k: int) returns (r: int)
      requires Ready() && SetPair(x0) && x0.elems[0].left == CC0_RTX && Is2(x0.elems[0].right, COMPARE)
      requires (k == 8 && m == DF) || (k == 9 && m == SF)
      modifies operand
      ensures r == if Matches(k, x0, env) then k else -1
      ensures r != -1 ==> Holds(operand, k, x0)
    {
      hide Matches;
      FloatCompareRow(k, m, x0, env);
      var x1 := x0.elems[0];
      var x2 := x1.right;
      var x3 := x2.left;
      if env.accepts(General, x3, m) {
        operand[0] := x3;
        x3 := x2.right;
        if env.accepts(General, x3, m) {
          operand[1] := x3;
          x1 := x0.elems[1];
          if Is1(x1, CLOBBER) {
            x2 := x1.arg;
            if x2 == Reg(SI, 0) {
              if env.t80387 { return k; }
            }
          }
        }
      }
      return -1;
    }

    // recog, L12-L51.
    method FloatFlags(x0: Rtx) returns (r: int)
      requires Ready() && SetPair(x0) && x0.elems[0].left == CC0_RTX
      modifies operand
      ensures FirstIn(r, PairFlagCodes(x0), x0, env)
      ensures r != -1 ==> Holds(operand, r, x0)
    {
      hide Matches;
      FloatTestRows(x0, env);
      r := FloatTest(x0, SF, 3);
      if r != -1 { return; }
      r := FloatTest(x0, DF, 4);
      if r != -1 { return; }
      if Is2(x0.elems[0].right, COMPARE) {
        r := FloatCompare(x0, DF, 8);
        if r != -1 { return; }
        r := FloatCompare(x0, SF, 9);
      }
    }

    // recog, L723-L726: a jump through a table.
    method TableJump(x0: Rtx) returns (r: int)
      requires Ready() && Sane(env) && SetPair(x0) && x0.elems[0].left == PC_RTX
      modifies operand
      ensures r == if Matches(138, x0, env) then 138 else -1
      ensures r != -1 ==> Holds(operand, r, x0)
    {
      hide Matches;
      TableJumpRow(x0, env);
      var x1 := x0.elems[0];
      var x2 := x1.right;
      if env.accepts(General, x2, SI) {
        operand[0] := x2;
        x1 := x0.elems[1];
        if Is1(x1, USE) {
          x2 := x1.arg;
          if Is1(x2, LABEL_REF) {
            operand[1] := x2.arg;
            return 138;
          }
        }
      }
      return -1;
    }

    // recog, L257-L260 with m = HImode and L265-L268 with m = SImode: unsigned
    // multiplication.  The callers test the mode of the source, or do not.
    method Multiply(x0: Rtx, m: Mode, k: int) returns (r: int)
      requires Ready() && SetPair(x0) && Is2(x0.elems[0].right, UMULT)
      requires env.accepts(General, x0.elems[0].left, m) && operand[0] == x0.elems[0].left
      requires (k == 58 && m == HI && x0.elems[0].right.mode == SI) || (k == 59 && m == SI)
      modifies operand
      ensures operand[0] == old(operand[0])
      ensures r == if Matches(k, Tighten(x0), env) then k else -1
      ensures r != -1 ==> Holds(operand, k, x0)
    {
      hide Matches;
      MultiplyRow(k, m, Tighten(x0), env);
      var x1 := x0.elems[0];
      var x2 := x1.right;
      var x3 := x2.left;
      if env.accepts(General, x3, m) {
        operand[1] := x3;
        x3 := x2.right;
        if env.accepts(General, x3, m) {
          operand[2] := x3;
          x1 := x0.elems[1];
          if Is1(x1, CLOBBER) {
            x2 := x1.arg;
            if x2 == Reg(m, 1) { return k; }
          }
        }
      }
      return -1;
    }

    // recog, L293-L299 (c = DIV) and L304-L310 (c = UDIV): quotient and remainder.
    method Divide(x0: Rtx, k: int, ghost c: Code2, q: Code2) returns (r: int)
      requires Ready() && SetPair(x0) && Is2(x0.elems[0].right, c)
      requires env.accepts(General, x0.elems[0].left, SI) && operand[0] == x0.elems[0].left
      requires (k == 66 && c == DIV && q == MOD) || (k == 67 && c == UDIV && q == UMOD)
      modifies operand
      ensures r == if Matches(k, Tighten(x0), env) then k else -1
      ensures r != -1 ==> Holds(operand, k, x0)
    {
      hide RtxEqual;
      hide Matches;
      hide Tighten;
      TightenParts(x0, c);
      DivModRow(k, c, q, Tighten(x0), env);
      var x1 := x0.elems[0];
      var x2 := x1.right;
      var x3 := x2.left;
      if !env.accepts(General, x3, SI) { return -1; }
      operand[1] := x3;
      x3 := x2.right;
      if !env.accepts(General, x3, SI) { return -1; }
      operand[2] := x3;
      x1 := x0.elems[1];
      if !Is2(x1, SET) { return -1; }
      x2 := x1.left;
      if !env.accepts(General, x2, SI) { return -1; }
      operand[3] := x2;
      x2 := x1.right;
      if !(Is2(x2, q) && x2.mode == SI) { return -1; }
      x3 := x2.left;
      if !RtxEqual(x3, operand[1]) { return -1; }
      x3 := x2.right;
      if !RtxEqual(x3, operand[2]) { return -1; }
      return k;
    }

    // recog, L255-L310.  Codes 59, 66 and 67 are recognised whatever the mode of
    // the source, as if it were SImode.
    method MultiplyDivide(x0: Rtx) returns (r: int)
      requires Ready() && Sane(env) && SetPair(x0)
      modifies operand
      ensures ArithAnswer(r, x0, env)
      ensures r != -1 ==> Holds(operand, r, x0)
    {
      hide Matches;
      MultiplyDivideSource(x0, env);
      TightenSame(x0);
      var x1 := x0.elems[0];
      var x2 := x1.left;
      if env.accepts(General, x2, HI) {
        operand[0] := x2;
        x2 := x1.right;
        if Is2(x2, UMULT) && x2.mode == SI {
          r := Multiply(x0, HI, 58);
          if r != -1 { return; }
        }
        x2 := x1.left;
      }
      r := -1;
      if env.accepts(General, x2, SI) {
        operand[0] := x2;
        x2 := x1.right;
        if Is2(x2, UMULT) {
          r := Multiply(x0, SI, 59);
        } else if Is2(x2, DIV) {
          r := Divide(x0, 66, DIV, MOD);
        } else if Is2(x2, UDIV) {
          r := Divide(x0, 67, UDIV, UMOD);
        }
      }
    }

    // recog, L11: a SET followed by something else.
    method Pair(x0: Rtx) returns (r: int)
      requires Ready() && Sane(env) && SetPair(x0)
      modifies operand
      ensures !LooseMode(x0) ==> IsFirst(r, x0, env)
      ensures LooseMode(x0) ==> FirstIn(r, {59, 66, 67}, Tighten(x0), env)
      ensures r != -1 ==> Holds(operand, r, x0)
    {
      hide Matches;
      hide Holds;
      var x2 := x0.elems[0].left;
      r := -1;
      if x2 == CC0_RTX {
        r := FloatFlags(x0);
      } else if x2 == PC_RTX {
        r := TableJump(x0);
      }
      PairFlags(r, x0, env);
      if r != -1 { return; }
      r := MultiplyDivide(x0);
      PairArith(r, x0, env);
    }

    // recog: the answer, for every rtx, with no assumption about it.
    method Recognise(x0: Rtx) returns (r: int)
      requires Ready() && Sane(env)
      modifies operand
      ensures Answer(r, x0, env)
      ensures r != -1 ==> Holds(operand, r, x0)
    {
      hide Matches;
      OtherRoots(x0, env);
      if Is2(x0, SET) {
        r := Recog3(x0);
      } else if x0.Parallel? && |x0.elems| == 2 {
        if Is2(x0.elems[0], SET) { r := Pair(x0); } else { r := -1; }
      } else if Is2(x0, CALL) {
        r := Call(x0);
      } else if IsInt(x0, 0) {
        r := 141;
      } else {
        r := -1;
      }
    }

    // recog, L728-L729: a call whose value is not used.
    method Call(x0: Rtx) returns (r: int)
      requires Ready() && Is2(x0, CALL)
      modifies operand
      ensures IsFirst(r, x0, env)
      ensures r != -1 ==> Holds(operand, r, x0)
    {
      hide Matches;
      CallOnlyRow(x0, env);
      var x1 := x0.left;
      if env.accepts(Indirect, x1, QI) {
        operand[0] := x1;
        x1 := x0.right;
        if env.accepts(General, x1, SI) { operand[1] := x1; return 139; }
      }
      return -1;
    }
  }
}
