// The i486 insn constructors (cmd/gcc/i486.gen/insn-emit.c) and the round trip
// through extraction and recognition.

module I486Emit {
  import opened Rtl
  import opened Patterns
  import opened I486Description
  import opened I486Index
  import opened I486Recog

  // The expanders for division and for blt and ble build the rtx of the unnamed
  // insn that follows them.
  function Twin(k: int): int {
    match k
    case 64 => 66
    case 65 => 67
    case 119 => 120
    case 124 => 125
    case _ => k
  }

  // The single insn gen_X builds for code k.
  function Emit(k: int, ops: seq<Rtx>): Rtx { Build(Pattern(Twin(k)), ops) }

  // The codes under which that insn can come back.
  function Alternatives(k: int): set<int> {
    match Twin(k)
    case 1 => {0, 1}
    case 2 => {0, 1, 2}
    case 4 => {3, 4}
    case 6 => {5, 6}
    case 7 => {5, 6, 7}
    case 9 => {8, 9}
    case 14 => {13, 14}
    case 16 => {15, 16}
    case 18 => {17, 18}
    case 20 => {19, 20}
    case 22 => {21, 22}
    case 24 => {23, 24}
    case 28 => {14, 25, 26, 28}
    case 30 => {29, 30}
    case 34 => {32, 34}
    case 37 => {35, 37}
    case 42 => {25, 26, 28, 42}
    case 44 => {43, 44}
    case 46 => {45, 46}
    case 49 => {27, 49}
    case 51 => {50, 51}
    case 53 => {52, 53}
    case 57 => {28, 57}
    case j => {j}
  }

  // Extraction undoes emission.
  lemma ExtractTestEmit(k: int, ops: seq<Rtx>)
    requires 0 <= k < 13 && |ops| == |Extract(k, PC_RTX)|
    ensures Extract(k, Emit(k, ops)) == ops
  {
    var p := Pattern(k);
    BuildStep(p, ops);
    BuildSet(if p.PPar? then p.a else p, ops);
  }

  lemma ExtractMoveEmit(k: int, ops: seq<Rtx>)
    requires 13 <= k < 29 && |ops| == |Extract(k, PC_RTX)|
    ensures Extract(k, Emit(k, ops)) == ops
  {
    BuildSet(Pattern(k), ops);
  }

  lemma ExtractAddEmit(k: int, ops: seq<Rtx>)
    requires 29 <= k < 56 && |ops| == |Extract(k, PC_RTX)|
    ensures Extract(k, Emit(k, ops)) == ops
  {
    BuildSet(Pattern(k), ops);
  }

  lemma ExtractMulDivEmit(k: int, ops: seq<Rtx>)
    requires 56 <= k < 68 && Twin(k) == k && |ops| == |Extract(k, PC_RTX)|
    ensures Extract(k, Emit(k, ops)) == ops
  {
    var p := Pattern(k);
    BuildStep(p, ops);
    BuildSet(if p.PPar? then p.a else p, ops);
    if p.PPar? { BuildStep(p.b, ops); }
  }

  lemma ExtractLogicEmit(k: int, ops: seq<Rtx>)
    requires 68 <= k < 87 && |ops| == |Extract(k, PC_RTX)|
    ensures Extract(k, Emit(k, ops)) == ops
  {
    BuildSet(Pattern(k), ops);
  }

  lemma ExtractShiftEmit(k: int, ops: seq<Rtx>)
    requires 87 <= k < 115 && |ops| == |Extract(k, PC_RTX)|
    ensures Extract(k, Emit(k, ops)) == ops
  {
    BuildSet(Pattern(k), ops);
  }

  lemma ExtractBranchEmit(k: int, ops: seq<Rtx>)
    requires 115 <= k < 137 && Twin(k) == k && |ops| == |Extract(k, PC_RTX)|
    ensures Extract(k, Emit(k, ops)) == ops
  {
    var p := Pattern(k);
    BuildSet(p, ops);
    BuildStep(if k < 127 then p.b.b else p.b.c, ops);
  }

  lemma ExtractJumpEmit(k: int, ops: seq<Rtx>)
    requires 137 <= k < N_CODES && |ops| == |Extract(k, PC_RTX)|
    ensures Extract(k, Emit(k, ops)) == ops
  {
    var p := Pattern(k);
    BuildStep(p, ops);
    if p.PPar? {
      BuildSet(p.a, ops);
      BuildStep(p.b, ops);
      BuildStep(p.b.a, ops);
    } else if k == 137 || k == 140 {
      BuildSet(p, ops);
    }
  }

  lemma ExtractEmit(k: int, ops: seq<Rtx>)
    requires 0 <= k < N_CODES && Twin(k) == k && |ops| == |Extract(k, PC_RTX)|
    ensures Extract(k, Emit(k, ops)) == ops
  {
    if k < 13 { ExtractTestEmit(k, ops); }
    else if k < 29 { ExtractMoveEmit(k, ops); }
    else if k < 56 { ExtractAddEmit(k, ops); }
    else if k < 68 { ExtractMulDivEmit(k, ops); }
    else if k < 87 { ExtractLogicEmit(k, ops); }
    else if k < 115 { ExtractShiftEmit(k, ops); }
    else if k < 137 { ExtractBranchEmit(k, ops); }
    else { ExtractJumpEmit(k, ops); }
  }

  lemma EmitDups(k: int, ops: seq<Rtx>)
    requires (k == 66 || k == 67) && |ops| == 4
    ensures DupsAgree(k, Emit(k, ops))
  {
    hide RtxEqual;
    var p := Pattern(k);
    BuildStep(p, ops);
    BuildSet(p.a, ops);
    BuildSet(p.b, ops);
    RtxEqualReflexive(ops[1]);
    RtxEqualReflexive(ops[2]);
  }

  // An emitted insn is an instance of its own template.
  lemma EmitMatches(k: int, ops: seq<Rtx>, env: Env)
    requires Accepted(Pattern(Twin(k)), ops, env) && Condition(Twin(k), env)
    requires |ops| == |Extract(Twin(k), PC_RTX)|
    ensures Matches(Twin(k), Emit(k, ops), env)
  {
    hide Pattern;
    hide Build;
    BuildShape(Pattern(Twin(k)), ops, env);
    if Twin(k) == 66 || Twin(k) == 67 { EmitDups(Twin(k), ops); }
  }

  // Two codes an operand destination can have for one computed source.
  lemma SourcePair(k: int, r: int, m: Mode, s: Rtx)
    requires k in SourceCodes(m, s) && r in SourceCodes(m, s) && 25 <= r <= k && !(r == 25 && k == 26)
    ensures r in Alternatives(k) && Twin(k) == k
  {}

  lemma IncOrDec(x: Rtx, env: Env)
    requires Is2(x, SET)
    ensures !(Matches(25, x, env) && Matches(26, x, env))
  {
    hide Matches;
    SiStepRows(x, env);
    BinaryConstShape(SI, PLUS, 1, x, env);
    BinaryConstShape(SI, PLUS, -1, x, env);
  }

  // A (set operand ...) comes back under one of its alternatives.
  lemma SetAlternatives(k: int, r: int, x: Rtx, env: Env)
    requires Sane(env) && Is2(x, SET) && !VoidConstant(x.left) && x.left != CC0_RTX && x.left != PC_RTX
    requires Matches(k, x, env) && Matches(r, x, env) && r <= k && k != 140 && Twin(k) == k
    ensures r in Alternatives(k)
  {
    hide Matches;
    hide Alternatives;
    var m, s := x.left.mode, x.right;
    NoNegativeCode(x, env);
    SetIndex(k, x.mode, x.left, s, env);
    SetIndex(r, x.mode, x.left, s, env);
    SourceRange(x, env);
    IncOrDec(x, env);
    if k in SourceCodes(m, s) && r in SourceCodes(m, s) {
      SourcePair(k, r, m, s);
    } else {
      if r in MoveCodes(m) { MoveMeansOperand(r, x, env); }
      if k in MoveCodes(m) { MoveMeansOperand(k, x, env); }
      MoveAlternatives(k, r, m, s);
    }
  }

  lemma MoveAlternatives(k: int, r: int, m: Mode, s: Rtx)
    requires k in MoveCodes(m) + SourceCodes(m, s) && r in MoveCodes(m) + SourceCodes(m, s) && 0 <= r <= k
    requires k in MoveCodes(m) || r in MoveCodes(m)
    requires r in MoveCodes(m) ==> if r == 28 then AddressForm(s) else OperandForm(s)
    requires k in MoveCodes(m) ==> if k == 28 then AddressForm(s) else OperandForm(s)
    requires r in {13, 15, 17, 19, 21, 23} ==> k == 28 ==> false
    requires forall j :: j in SourceCodes(m, s) && 0 <= j ==> 25 <= j < 28 || 29 <= j
    ensures r in Alternatives(k)
  {}

  lemma MoveMeansOperand(r: int, x: Rtx, env: Env)
    requires Sane(env) && Is2(x, SET) && Matches(r, x, env) && r in MoveCodes(x.left.mode)
    ensures if r == 28 then AddressForm(x.right) && !x.left.Mem? else OperandForm(x.right)
    ensures r in {13, 15, 17, 19, 21, 23} ==> x.left.Mem?
  {
    hide Pattern;
    hide MoveCodes;
    MoveRow(r, x.left.mode);
    if r == 28 { LoadAddressMeansOperand(x, env); }
    else if r in {14, 16, 18, 20, 22, 24} { GeneralMeansOperand(r, x, env); }
    else if r in {13, 15, 17, 19, 21, 23} { PushMeansOperand(r, x, env); }
  }

  lemma MoveRow(r: int, m: Mode)
    requires r in MoveCodes(m)
    ensures m != VOID && r in {13, 14, 15, 16, 17, 18, 19, 20, 21, 22, 23, 24, 28}
    ensures r in {14, 16, 18, 20, 22, 24} ==> Pattern(r) == Move(General, m)
    ensures r in {13, 15, 17, 19, 21, 23} ==> Pattern(r) == Move(Push, m)
  {}

  lemma PushMeansOperand(r: int, x: Rtx, env: Env)
    requires Sane(env) && Is2(x, SET) && Matches(r, x, env)
    requires x.left.mode != VOID && Pattern(r) == Move(Push, x.left.mode)
    ensures OperandForm(x.right) && x.left.Mem?
  {
    hide Pattern;
    MoveShape(Push, x.left.mode, x, env);
  }

  lemma GeneralMeansOperand(r: int, x: Rtx, env: Env)
    requires Sane(env) && Is2(x, SET) && Matches(r, x, env)
    requires x.left.mode != VOID && Pattern(r) == Move(General, x.left.mode)
    ensures OperandForm(x.right)
  {
    hide Pattern;
    MoveShape(General, x.left.mode, x, env);
  }

  lemma LoadAddressMeansOperand(x: Rtx, env: Env)
    requires Sane(env) && Is2(x, SET) && Matches(28, x, env)
    ensures AddressForm(x.right) && !x.left.Mem?
  {
    Shape2(SET, VOID, Op(0, Register, SI), Op(1, Address, QI), x, env);
  }

  lemma FlagAlternatives(k: int, r: int, x: Rtx, env: Env)
    requires Sane(env) && Is2(x, SET) && x.left == CC0_RTX
    requires Matches(k, x, env) && Matches(r, x, env) && r <= k && k != 140
    ensures r == k || (0 <= r < k < 3) || (5 <= r < k < 8)
  {
    SetIndex(k, x.mode, x.left, x.right, env);
    SetIndex(r, x.mode, x.left, x.right, env);
    FlagCodes(k, r, x, env);
  }

  lemma FlagCodes(k: int, r: int, x: Rtx, env: Env)
    requires Sane(env) && Is2(x, SET) && x.left == CC0_RTX
    requires Matches(k, x, env) && Matches(r, x, env) && r <= k && k != 140
    requires k in SetCodes(x.left, x.right) && r in SetCodes(x.left, x.right)
    ensures r == k || (0 <= r < k < 3) || (5 <= r < k < 8)
  {
    hide Matches;
    hide Extract;
    hide TestRow;
    TestRows(x, env);
  }

  lemma JumpAlternatives(k: int, r: int, x: Rtx, env: Env)
    requires Sane(env) && Is2(x, SET) && x.left == PC_RTX
    requires Matches(k, x, env) && Matches(r, x, env) && r <= k && k != 140
    ensures r == k
  {
    SetIndex(k, x.mode, x.left, x.right, env);
    SetIndex(r, x.mode, x.left, x.right, env);
    JumpCodes(k, r, x, env);
  }

  lemma JumpCodes(k: int, r: int, x: Rtx, env: Env)
    requires Sane(env) && Is2(x, SET) && x.left == PC_RTX
    requires Matches(k, x, env) && Matches(r, x, env) && r <= k && k != 140
    requires k in SetCodes(x.left, x.right) && r in SetCodes(x.left, x.right)
    ensures r == k
  {
    hide Matches;
    if Is3(x.right, IF_THEN_ELSE) {
      var c := x.right.fst.code2;
      assert JumpCode(c) != -1;
      JumpRow(c, x, env);
      InvertedJumpRow(c, x, env);
      hide JumpCode;
      hide InvertedJumpCode;
      hide BranchCodes;
      hide Extract;
    }
  }

  lemma PairAlternatives(k: int, r: int, x: Rtx, env: Env)
    requires Sane(env) && SetPair(x)
    requires Matches(k, x, env) && Matches(r, x, env) && r <= k
    ensures r == k || (k == 4 && r == 3) || (k == 9 && r == 8)
  {
    hide Matches;
    PairCandidates(x, env);
    var e := x.elems[0];
    if k in PairFlagCodes(x) {
      FlagPairs(k, r, x, env);
    } else if r in PairFlagCodes(x) {
      FlagPairs(r, k, x, env);
    } else {
      ArithPairs(x, env);
    }
  }

  // A pair that sets a flag or the program counter.
  lemma FlagPairs(k: int, r: int, x: Rtx, env: Env)
    requires Sane(env) && SetPair(x) && k in PairFlagCodes(x)
    requires Matches(k, x, env) && Matches(r, x, env) && r in PairFlagCodes(x) + {58, 59, 66, 67}
    ensures r == k || (k == 4 && r == 3) || (k == 3 && r == 4) || (k == 9 && r == 8) || (k == 8 && r == 9)
  {
    hide Matches;
    PairFlagRange(k, x, env);
    if x.elems[0].left == CC0_RTX { FloatPairs(x, env); }
  }

  lemma FloatPairs(x: Rtx, env: Env)
    requires Sane(env) && SetPair(x) && x.elems[0].left == CC0_RTX
    ensures Is2(x.elems[0].right, COMPARE) ==> !Matches(3, x, env) && !Matches(4, x, env)
  {
    FloatTestRows(x, env);
  }

  lemma ArithPairs(x: Rtx, env: Env)
    requires Sane(env) && SetPair(x)
    ensures !(Matches(58, x, env) && Matches(59, x, env))
    ensures Matches(58, x, env) || Matches(59, x, env) ==> !Matches(66, x, env) && !Matches(67, x, env)
    ensures !(Matches(66, x, env) && Matches(67, x, env))
  {
    hide Matches;
    PairCodes(x, env);
    if x.elems[0].right.X2? {
      MultiplyRow(58, HI, x, env);
      MultiplyRow(59, SI, x, env);
    }
    MultiplyDivideSource(x, env);
  }

  lemma CallAlternatives(r: int, x: Rtx, env: Env)
    requires Sane(env) && Is2(x, SET) && !VoidConstant(x.left)
    requires Matches(140, x, env) && Matches(r, x, env) && r <= 140
    ensures r == 140
  {
    hide Matches;
    CallRow(x, env);
    CallIsNoSource(x, env);
    SetIndex(r, x.mode, x.left, x.right, env);
    if x.left == CC0_RTX { TestRows(x, env); }
  }

  lemma SomeAlternatives(k: int, r: int)
    requires Twin(k) == k
    requires r == k || (0 <= r < k < 3) || (5 <= r < k < 8) || (k == 4 && r == 3) || (k == 9 && r == 8)
    ensures r in Alternatives(k)
  {}

  // Two templates of one insn: the lower is among the alternatives of the other.
  lemma Overlap(k: int, r: int, x: Rtx, env: Env)
    requires Sane(env) && !ConstantDestination(x) && Twin(k) == k
    requires Matches(k, x, env) && Matches(r, x, env) && r <= k
    ensures r in Alternatives(k)
  {
    hide Matches;
    OtherRoots(x, env);
    if Is2(x, SET) {
      if k == 140 { CallAlternatives(r, x, env); }
      else if x.left == CC0_RTX { FlagAlternatives(k, r, x, env); }
      else if x.left == PC_RTX { JumpAlternatives(k, r, x, env); }
      else { SetAlternatives(k, r, x, env); return; }
    } else if SetPair(x) {
      PairAlternatives(k, r, x, env);
    } else if Is2(x, CALL) {
      CallOnlyRow(x, env);
    }
    SomeAlternatives(k, r);
  }

  // A general operand may be a constant, but the recogniser finds no pattern, save the
  // call, for a constant destination.
  predicate Lost(k: int, ops: seq<Rtx>) { ConstantDestination(Emit(k, ops)) && Twin(k) != 140 }

  // The insn gen_X builds from acceptable operands comes back as X, as the
  // unnamed twin of X, or as one of the lower codes listed for X, if and only if its
  // destination is no constant; and the code X itself gives back the operands.
  lemma EmitRecognised(k: int, ops: seq<Rtx>, r: int, env: Env)
    requires Sane(env) && 0 <= k < N_CODES
    requires Accepted(Pattern(Twin(k)), ops, env) && Condition(Twin(k), env)
    requires |ops| == |Extract(Twin(k), PC_RTX)|
    requires Answer(r, Emit(k, ops), env)
    ensures r in Alternatives(k) <==> !Lost(k, ops)
    ensures Lost(k, ops) ==> r == -1
    ensures Extract(Twin(k), Emit(k, ops)) == ops
  {
    hide Matches;
    hide Pattern;
    hide Extract;
    hide Emit;
    hide Accepted;
    TwinTwice(k, ops);
    EmitMatches(k, ops, env);
    ExtractEmit(Twin(k), ops);
    var x := Emit(k, ops);
    NotLoose(Twin(k), x, env);
    if ConstantDestination(x) {
      OnlyCall(x, env);
      NoFailure(k);
    } else {
      Overlap(Twin(k), r, x, env);
    }
  }

  lemma NoFailure(k: int)
    ensures -1 !in Alternatives(k) || k == -1
    ensures Twin(k) == 140 ==> Alternatives(k) == {140}
  {}

  lemma TwinTwice(k: int, ops: seq<Rtx>)
    requires 0 <= k < N_CODES
    ensures 0 <= Twin(k) < N_CODES && Twin(Twin(k)) == Twin(k)
    ensures Alternatives(Twin(k)) == Alternatives(k) && Emit(Twin(k), ops) == Emit(k, ops)
  {}

  // Emission, recognition and extraction together.
  method RoundTrip(recog: Recog, k: int, ops: seq<Rtx>) returns (x: Rtx, r: int)
    requires recog.Ready() && Sane(recog.env) && 0 <= k < N_CODES
    requires Accepted(Pattern(Twin(k)), ops, recog.env) && Condition(Twin(k), recog.env)
    requires |ops| == |Extract(Twin(k), PC_RTX)|
    modifies recog.operand
    ensures x == Emit(k, ops)
    ensures if Lost(k, ops) then r == -1 else r in Alternatives(k) && Holds(recog.operand, r, x)
    ensures r == Twin(k) ==> ops == recog.operand[..|ops|]
  {
    hide Matches;
    hide Pattern;
    hide Emit;
    hide Accepted;
    x := Emit(k, ops);
    r := recog.Recognise(x);
    EmitRecognised(k, ops, r, recog.env);
    NoFailure(k);
    TwinTwice(k, ops);
  }

  lemma NotLoose(k: int, x: Rtx, env: Env)
    requires Sane(env) && Matches(k, x, env)
    ensures !LooseMode(x)
  {
    if SetPair(x) {
      PairCodes(x, env);
      hide Matches;
    }
  }
}
