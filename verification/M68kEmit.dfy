// The m68k insn constructors (cmd/gcc/m68k.gen/insn-emit.c) and the round trip
// through extraction and recognition.

module M68kEmit {
  import opened Rtl
  import opened Patterns
  import opened M68kAlternatives
  import opened M68kDescription
  import opened M68kIndex
  import opened M68kMeaning
  import opened M68kRecog

  // The insn built for code k.
  function Emit(k: int, ops: seq<Rtx>): Rtx { Build(Pattern(k), ops) }

  // Where the parts of a template stand in what is built from it

  function Child(p: Pat, i: nat): Pat {
    match p
    case P1(_, _, a) => a
    case P2(_, _, a, b) => if i == 0 then a else b
    case P3(_, _, a, b, c) => if i == 0 then a else if i == 1 then b else c
    case PSub(_, a, _) => a
    case PPar(a, b) => if i == 0 then a else b
    case _ => Never
  }

  predicate Inner(p: Pat) { p.P1? || p.P2? || p.P3? || p.PSub? }

  lemma BuildChild(p: Pat, i: nat, ops: seq<Rtx>)
    ensures Inner(p) ==> Xexp(Build(p, ops), i) == Build(Child(p, i), ops)
    ensures p.PPar? && i < 2 ==> Xvecexp(Build(p, ops), i) == Build(Child(p, i), ops)
  {}

  lemma BuildChildren(p: Pat, ops: seq<Rtx>)
    ensures Inner(p) ==> forall i: nat | i < 3 :: Xexp(Build(p, ops), i) == Build(Child(p, i), ops)
    ensures p.PPar? ==> forall i: nat | i < 2 :: Xvecexp(Build(p, ops), i) == Build(Child(p, i), ops)
  {
    forall i: nat | i < 3 ensures Inner(p) ==> Xexp(Build(p, ops), i) == Build(Child(p, i), ops) {
      BuildChild(p, i, ops);
    }
  }

  lemma BuildOp(p: Pat, ops: seq<Rtx>)
    ensures p.Op? && p.n < |ops| ==> Build(p, ops) == ops[p.n]
    ensures p.Dup? && p.n < |ops| ==> Build(p, ops) == ops[p.n]
  {}

  lemma ExtractTestEmit(k: int, ops: seq<Rtx>)
    requires 0 <= k < 20 && Pattern(k) != Never && |ops| == |Extract(k, PC_RTX)|
    ensures Extract(k, Emit(k, ops)) == ops
  {
    hide Build;
    var p := Pattern(k);
    BuildChildren(p, ops);
    BuildChildren(Child(p, 1), ops);
    BuildChildren(Child(p, 0), ops);
    BuildChildren(Child(Child(p, 0), 1), ops);
    BuildOp(Child(p, 0), ops);
    BuildOp(Child(p, 1), ops);
    BuildOp(Child(Child(p, 1), 0), ops);
    BuildOp(Child(Child(p, 1), 1), ops);
    BuildOp(Child(Child(p, 0), 1), ops);
    BuildOp(Child(Child(Child(p, 0), 1), 0), ops);
    BuildOp(Child(Child(Child(p, 0), 1), 1), ops);
  }

  lemma ExtractRegisterBitEmit(k: int, ops: seq<Rtx>)
    requires 20 <= k < 24 && Pattern(k) != Never && |ops| == |Extract(k, PC_RTX)|
    ensures Extract(k, Emit(k, ops)) == ops
  {
    hide Build;
    var p := Pattern(k);
    BuildChildren(p, ops);
    BuildChildren(Child(p, 1), ops);
    BuildChildren(Child(Child(p, 1), 2), ops);
    BuildChildren(Child(Child(Child(p, 1), 2), 1), ops);
    BuildOp(Child(Child(p, 1), 0), ops);
    BuildOp(Child(Child(Child(p, 1), 2), 1), ops);
    BuildOp(Child(Child(Child(Child(p, 1), 2), 1), 0), ops);
  }

  lemma ExtractFixedBitEmit(k: int, ops: seq<Rtx>)
    requires 24 <= k < 29 && Pattern(k) != Never && |ops| == |Extract(k, PC_RTX)|
    ensures Extract(k, Emit(k, ops)) == ops
  {
    hide Build;
    var p := Pattern(k);
    BuildChildren(p, ops);
    BuildChildren(Child(p, 1), ops);
    BuildChildren(Child(Child(p, 1), 0), ops);
    BuildChildren(Child(Child(Child(p, 1), 0), 0), ops);
    BuildOp(Child(Child(p, 1), 0), ops);
    BuildOp(Child(Child(p, 1), 2), ops);
    BuildOp(Child(Child(Child(p, 1), 0), 0), ops);
    BuildOp(Child(Child(p, 1), 1), ops);
    BuildOp(Child(Child(Child(Child(p, 1), 0), 0), 0), ops);
  }

  lemma ExtractMoveEmit(k: int, ops: seq<Rtx>)
    requires 29 <= k < 40 && Pattern(k) != Never && |ops| == |Extract(k, PC_RTX)|
    ensures Extract(k, Emit(k, ops)) == ops
  {
    hide Build;
    var p := Pattern(k);
    BuildChildren(p, ops);
    BuildChildren(Child(p, 0), ops);
    BuildOp(Child(p, 0), ops);
    BuildOp(Child(p, 1), ops);
    BuildOp(Child(Child(p, 0), 0), ops);
  }

  lemma ExtractConvertEmit(k: int, ops: seq<Rtx>)
    requires 40 <= k < 78 && Pattern(k) != Never && |ops| == |Extract(k, PC_RTX)|
    ensures Extract(k, Emit(k, ops)) == ops
  {
    hide Build;
    var p := Pattern(k);
    BuildChildren(p, ops);
    BuildChildren(Child(p, 1), ops);
    BuildChildren(Child(Child(p, 1), 0), ops);
    BuildOp(Child(p, 0), ops);
    BuildOp(Child(Child(p, 1), 0), ops);
    BuildOp(Child(Child(Child(p, 1), 0), 0), ops);
  }

  lemma ExtractAddSubEmit(k: int, ops: seq<Rtx>)
    requires 78 <= k < 102 && Pattern(k) != Never && |ops| == |Extract(k, PC_RTX)|
    ensures Extract(k, Emit(k, ops)) == ops
  {
    hide Build;
    var p := Pattern(k);
    BuildChildren(p, ops);
    BuildChildren(Child(p, 0), ops);
    BuildChildren(Child(p, 1), ops);
    BuildChildren(Child(Child(p, 1), 1), ops);
    BuildOp(Child(p, 0), ops);
    BuildOp(Child(Child(p, 0), 0), ops);
    BuildOp(Child(Child(p, 1), 0), ops);
    BuildOp(Child(Child(p, 1), 1), ops);
    BuildOp(Child(Child(Child(p, 1), 1), 0), ops);
  }

  lemma ExtractMultDivEmit(k: int, ops: seq<Rtx>)
    requires 102 <= k < 126 && Pattern(k) != Never && |ops| == |Extract(k, PC_RTX)|
    ensures Extract(k, Emit(k, ops)) == ops
  {
    hide Build;
    var p := Pattern(k);
    BuildChildren(p, ops);
    BuildChildren(Child(p, 1), ops);
    BuildOp(Child(p, 0), ops);
    BuildOp(Child(Child(p, 1), 0), ops);
    BuildOp(Child(Child(p, 1), 1), ops);
  }

  lemma ExtractModEmit(k: int, ops: seq<Rtx>)
    requires 126 <= k < 132 && Pattern(k) != Never && |ops| == |Extract(k, PC_RTX)|
    ensures Extract(k, Emit(k, ops)) == ops
  {
    hide Build;
    var p := Pattern(k);
    BuildChildren(p, ops);
    BuildChildren(Child(p, 0), ops);
    BuildChildren(Child(p, 1), ops);
    BuildChildren(Child(Child(p, 0), 1), ops);
    BuildOp(Child(p, 0), ops);
    BuildOp(Child(Child(p, 1), 0), ops);
    BuildOp(Child(Child(p, 1), 1), ops);
    BuildOp(Child(Child(p, 0), 0), ops);
    BuildOp(Child(Child(Child(p, 0), 1), 0), ops);
    BuildOp(Child(Child(Child(p, 0), 1), 1), ops);
  }

  lemma ExtractLogicEmit(k: int, ops: seq<Rtx>)
    requires 132 <= k < 143 && Pattern(k) != Never && |ops| == |Extract(k, PC_RTX)|
    ensures Extract(k, Emit(k, ops)) == ops
  {
    hide Build;
    var p := Pattern(k);
    BuildChildren(p, ops);
    BuildChildren(Child(p, 1), ops);
    BuildChildren(Child(Child(p, 1), 0), ops);
    BuildOp(Child(p, 0), ops);
    BuildOp(Child(Child(p, 1), 0), ops);
    BuildOp(Child(Child(p, 1), 1), ops);
    BuildOp(Child(Child(Child(p, 1), 0), 0), ops);
  }

  lemma ExtractNegateEmit(k: int, ops: seq<Rtx>)
    requires 143 <= k < 167 && Pattern(k) != Never && |ops| == |Extract(k, PC_RTX)|
    ensures Extract(k, Emit(k, ops)) == ops
  {
    hide Build;
    var p := Pattern(k);
    BuildChildren(p, ops);
    BuildChildren(Child(p, 1), ops);
    BuildChildren(Child(Child(p, 1), 0), ops);
    BuildChildren(Child(Child(p, 1), 1), ops);
    BuildOp(Child(p, 0), ops);
    BuildOp(Child(Child(p, 1), 0), ops);
    BuildOp(Child(Child(p, 1), 1), ops);
    BuildOp(Child(Child(Child(p, 1), 0), 0), ops);
    BuildOp(Child(Child(Child(p, 1), 1), 0), ops);
  }

  lemma ExtractShiftEmit(k: int, ops: seq<Rtx>)
    requires 167 <= k < 185 && Pattern(k) != Never && |ops| == |Extract(k, PC_RTX)|
    ensures Extract(k, Emit(k, ops)) == ops
  {
    hide Build;
    var p := Pattern(k);
    BuildChildren(p, ops);
    BuildChildren(Child(p, 1), ops);
    BuildOp(Child(p, 0), ops);
    BuildOp(Child(Child(p, 1), 0), ops);
    BuildOp(Child(Child(p, 1), 1), ops);
  }

  lemma ExtractFieldEmit(k: int, ops: seq<Rtx>)
    requires 185 <= k < 193 && Pattern(k) != Never && |ops| == |Extract(k, PC_RTX)|
    ensures Extract(k, Emit(k, ops)) == ops
  {
    hide Build;
    var p := Pattern(k);
    BuildChildren(p, ops);
    BuildChildren(Child(p, 0), ops);
    BuildChildren(Child(p, 1), ops);
    BuildOp(Child(p, 0), ops);
    BuildOp(Child(p, 1), ops);
    BuildOp(Child(Child(p, 0), 0), ops);
    BuildOp(Child(Child(p, 0), 1), ops);
    BuildOp(Child(Child(p, 0), 2), ops);
    BuildOp(Child(Child(p, 1), 0), ops);
    BuildOp(Child(Child(p, 1), 1), ops);
    BuildOp(Child(Child(p, 1), 2), ops);
  }

  lemma ExtractLongFieldEmit(k: int, ops: seq<Rtx>)
    requires 193 <= k < 199 && Pattern(k) != Never && |ops| == |Extract(k, PC_RTX)|
    ensures Extract(k, Emit(k, ops)) == ops
  {
    hide Build;
    var p := Pattern(k);
    BuildChildren(p, ops);
    BuildChildren(Child(p, 0), ops);
    BuildChildren(Child(p, 1), ops);
    BuildOp(Child(p, 0), ops);
    BuildOp(Child(p, 1), ops);
    BuildOp(Child(Child(p, 0), 0), ops);
    BuildOp(Child(Child(p, 0), 1), ops);
    BuildOp(Child(Child(p, 0), 2), ops);
    BuildOp(Child(Child(p, 1), 0), ops);
    BuildOp(Child(Child(p, 1), 1), ops);
    BuildOp(Child(Child(p, 1), 2), ops);
  }

  lemma ExtractTestFieldEmit(k: int, ops: seq<Rtx>)
    requires 199 <= k < 205 && Pattern(k) != Never && |ops| == |Extract(k, PC_RTX)|
    ensures Extract(k, Emit(k, ops)) == ops
  {
    hide Build;
    var p := Pattern(k);
    BuildChildren(p, ops);
    BuildChildren(Child(p, 1), ops);
    BuildChildren(Child(Child(p, 1), 0), ops);
    BuildOp(Child(Child(p, 1), 0), ops);
    BuildOp(Child(Child(p, 1), 1), ops);
    BuildOp(Child(Child(p, 1), 2), ops);
    BuildOp(Child(Child(Child(p, 1), 0), 0), ops);
    BuildOp(Child(Child(Child(p, 1), 0), 1), ops);
    BuildOp(Child(Child(Child(p, 1), 0), 2), ops);
  }

  lemma ExtractBranchEmit(k: int, ops: seq<Rtx>)
    requires 205 <= k < 235 && Pattern(k) != Never && |ops| == |Extract(k, PC_RTX)|
    ensures Extract(k, Emit(k, ops)) == ops
  {
    hide Build;
    var p := Pattern(k);
    BuildChildren(p, ops);
    BuildChildren(Child(p, 1), ops);
    BuildChildren(Child(Child(p, 1), 1), ops);
    BuildChildren(Child(Child(p, 1), 2), ops);
    BuildOp(Child(p, 0), ops);
    BuildOp(Child(Child(Child(p, 1), 1), 0), ops);
    BuildOp(Child(Child(Child(p, 1), 2), 0), ops);
  }

  lemma ExtractJumpEmit(k: int, ops: seq<Rtx>)
    requires 235 <= k < 240 && Pattern(k) != Never && |ops| == |Extract(k, PC_RTX)|
    ensures Extract(k, Emit(k, ops)) == ops
  {
    hide Build;
    var p := Pattern(k);
    BuildChildren(p, ops);
    BuildChildren(Child(p, 0), ops);
    BuildChildren(Child(p, 1), ops);
    BuildChildren(Child(Child(p, 0), 1), ops);
    BuildChildren(Child(Child(p, 1), 0), ops);
    BuildOp(Child(Child(Child(p, 0), 1), 1), ops);
    BuildOp(Child(Child(Child(p, 1), 0), 0), ops);
    BuildOp(Child(Child(p, 1), 0), ops);
  }

  lemma ExtractCountEmit(k: int, ops: seq<Rtx>)
    requires 240 <= k < 243 && Pattern(k) != Never && |ops| == |Extract(k, PC_RTX)|
    ensures Extract(k, Emit(k, ops)) == ops
  {
    hide Build;
    var p := Pattern(k);
    BuildChildren(p, ops);
    BuildChildren(Child(p, 0), ops);
    BuildChildren(Child(Child(p, 0), 1), ops);
    BuildChildren(Child(Child(Child(p, 0), 1), 0), ops);
    BuildChildren(Child(Child(Child(Child(p, 0), 1), 0), 0), ops);
    BuildChildren(Child(Child(Child(Child(Child(p, 0), 1), 0), 0), 0), ops);
    BuildChildren(Child(Child(Child(p, 0), 1), 1), ops);
    BuildOp(Child(Child(Child(Child(p, 0), 1), 1), 0), ops);
    BuildOp(Child(Child(Child(Child(Child(p, 0), 1), 0), 0), 0), ops);
    BuildOp(Child(Child(Child(Child(Child(Child(p, 0), 1), 0), 0), 0), 0), ops);
    BuildOp(Child(Child(Child(Child(p, 0), 1), 0), 0), ops);
  }

  lemma ExtractCallEmit(k: int, ops: seq<Rtx>)
    requires 243 <= k < 248 && Pattern(k) != Never && |ops| == |Extract(k, PC_RTX)|
    ensures Extract(k, Emit(k, ops)) == ops
  {
    hide Build;
    var p := Pattern(k);
    BuildChildren(p, ops);
    BuildChildren(Child(p, 1), ops);
    BuildOp(Child(p, 0), ops);
    BuildOp(Child(p, 1), ops);
    BuildOp(Child(Child(p, 1), 0), ops);
    BuildOp(Child(Child(p, 1), 1), ops);
  }

  lemma ExtractMultiplyAddEmit(k: int, ops: seq<Rtx>)
    requires 248 <= k < 264 && Pattern(k) != Never && |ops| == |Extract(k, PC_RTX)|
    ensures Extract(k, Emit(k, ops)) == ops
  {
    hide Build;
    var p := Pattern(k);
    BuildChildren(p, ops);
    BuildChildren(Child(p, 1), ops);
    BuildChildren(Child(Child(p, 1), 0), ops);
    BuildChildren(Child(Child(p, 1), 1), ops);
    BuildOp(Child(p, 0), ops);
    BuildOp(Child(Child(p, 1), 0), ops);
    BuildOp(Child(Child(p, 1), 1), ops);
    BuildOp(Child(Child(Child(p, 1), 0), 0), ops);
    BuildOp(Child(Child(Child(p, 1), 0), 1), ops);
    BuildOp(Child(Child(Child(p, 1), 1), 0), ops);
    BuildOp(Child(Child(Child(p, 1), 1), 1), ops);
  }

  // Extraction undoes emission.
  lemma ExtractEmit(k: int, ops: seq<Rtx>)
    requires 0 <= k < N_CODES && Pattern(k) != Never && |ops| == |Extract(k, PC_RTX)|
    ensures Extract(k, Emit(k, ops)) == ops
  {
    hide Pattern;
    hide Extract;
    hide Emit;
    if k < 20 { ExtractTestEmit(k, ops); }
    else if k < 24 { ExtractRegisterBitEmit(k, ops); }
    else if k < 29 { ExtractFixedBitEmit(k, ops); }
    else if k < 40 { ExtractMoveEmit(k, ops); }
    else if k < 78 { ExtractConvertEmit(k, ops); }
    else if k < 102 { ExtractAddSubEmit(k, ops); }
    else if k < 126 { ExtractMultDivEmit(k, ops); }
    else if k < 132 { ExtractModEmit(k, ops); }
    else if k < 143 { ExtractLogicEmit(k, ops); }
    else if k < 167 { ExtractNegateEmit(k, ops); }
    else if k < 185 { ExtractShiftEmit(k, ops); }
    else if k < 193 { ExtractFieldEmit(k, ops); }
    else if k < 199 { ExtractLongFieldEmit(k, ops); }
    else if k < 205 { ExtractTestFieldEmit(k, ops); }
    else if k < 235 { ExtractBranchEmit(k, ops); }
    else if k < 240 { ExtractJumpEmit(k, ops); }
    else if k < 243 { ExtractCountEmit(k, ops); }
    else if k < 248 { ExtractCallEmit(k, ops); }
    else if k < 264 { ExtractMultiplyAddEmit(k, ops); }
  }

  lemma StrictDups(k: int, ops: seq<Rtx>)
    requires k in {81, 83, 93, 95} && |ops| == 2
    ensures DupsAgree(k, Emit(k, ops))
  {
    hide Build;
    hide RtxEqual;
    var p := Pattern(k);
    BuildChildren(p, ops);
    BuildChildren(p.a, ops);
    BuildChildren(p.b, ops);
    BuildOp(p.a.a, ops);
    BuildOp(p.b.a, ops);
    RtxEqualReflexive(ops[0]);
  }

  lemma DivModDups(k: int, ops: seq<Rtx>)
    requires (k == 130 || k == 131) && |ops| == 4
    ensures DupsAgree(k, Emit(k, ops))
  {
    hide Build;
    hide RtxEqual;
    var p := Pattern(k);
    BuildChildren(p, ops);
    BuildChildren(p.a, ops);
    BuildChildren(p.b, ops);
    BuildChildren(p.a.b, ops);
    BuildChildren(p.b.b, ops);
    BuildOp(p.a.b.a, ops);
    BuildOp(p.a.b.b, ops);
    BuildOp(p.b.b.a, ops);
    BuildOp(p.b.b.b, ops);
    RtxEqualReflexive(ops[1]);
    RtxEqualReflexive(ops[2]);
  }

  lemma ComplementDups(ops: seq<Rtx>)
    requires |ops| == 4
    ensures DupsAgree(190, Emit(190, ops))
  {
    hide Build;
    hide RtxEqual;
    var p := Pattern(190);
    BuildChildren(p, ops);
    BuildChildren(p.a, ops);
    BuildChildren(p.b, ops);
    BuildChildren(p.b.a, ops);
    BuildOp(p.a.a, ops);
    BuildOp(p.a.b, ops);
    BuildOp(p.a.c, ops);
    BuildOp(p.b.a.a, ops);
    BuildOp(p.b.a.b, ops);
    BuildOp(p.b.a.c, ops);
    RtxEqualReflexive(ops[0]);
    RtxEqualReflexive(ops[1]);
    RtxEqualReflexive(ops[2]);
  }

  lemma CountDups(k: int, ops: seq<Rtx>)
    requires 240 <= k < 243 && |ops| == 2
    ensures DupsAgree(k, Emit(k, ops))
  {
    hide Build;
    hide RtxEqual;
    ExtractCountEmit(k, ops);
    var p := Pattern(k);
    BuildChildren(p, ops);
    BuildChildren(p.b, ops);
    BuildChildren(p.b.b, ops);
    BuildOp(p.b.a, ops);
    BuildOp(p.b.b.a, ops);
    RtxEqualReflexive(ops[0]);
  }

  // Every repetition of an operand in an emitted insn is rtx-equal to the operand.
  lemma EmitDups(k: int, ops: seq<Rtx>)
    requires Pattern(k) != Never && |ops| == |Extract(k, PC_RTX)|
    ensures DupsAgree(k, Emit(k, ops))
  {
    hide Pattern;
    hide Emit;
    if k in {81, 83, 93, 95} { StrictDups(k, ops); }
    else if k == 130 || k == 131 { DivModDups(k, ops); }
    else if k == 190 { ComplementDups(ops); }
    else if 240 <= k < 243 { CountDups(k, ops); }
  }

  // An emitted insn is an instance of its own template.
  lemma EmitMatches(k: int, ops: seq<Rtx>, env: Env)
    requires Accepted(Pattern(k), ops, env) && Condition(k, Emit(k, ops), env)
    requires |ops| == |Extract(k, PC_RTX)|
    ensures Matches(k, Emit(k, ops), env)
  {
    hide Pattern;
    hide Build;
    hide DupsAgree;
    hide Condition;
    BuildShape(Pattern(k), ops, env);
    EmitDups(k, ops);
  }

  // No pattern but the call is found for a constant destination.
  predicate Lost(k: int, ops: seq<Rtx>) {
    var x := Emit(k, ops);
    Is2(x, SET) && VoidConstant(x.left) && k != 244
  }

  // What an insn constructor builds from acceptable operands comes back under its own
  // code or a lower one that the insn matches too, if and only if its destination is no
  // constant; in one case, the low part of a constant, a byte move comes back for a
  // halfword move.  The code itself gives back the operands, and a lower code is one of
  // its alternatives, and among those the switches try for the insn's destination and
  // source.
  lemma EmitRecognised(k: int, ops: seq<Rtx>, r: int, env: Env)
    requires Sane(env) && 0 <= k < N_CODES
    requires Accepted(Pattern(k), ops, env) && Condition(k, Emit(k, ops), env)
    requires |ops| == |Extract(k, PC_RTX)|
    requires Answer(r, Emit(k, ops), env)
    ensures Extract(k, Emit(k, ops)) == ops
    ensures r == -1 <==> Lost(k, ops)
    ensures r != -1 ==> Matches(r, Emit(k, ops), env) && (0 <= r <= k || (k == 33 && r == 35))
    ensures r != -1 ==> r in Alternatives(k)
    ensures Is2(Emit(k, ops), SET) && r != -1 && !VoidConstant(Emit(k, ops).left) ==>
        Candidate(r, Emit(k, ops).left, Emit(k, ops).right)
  {
    hide Pattern;
    hide Extract;
    hide Emit;
    hide Condition;
    hide Matches;
    hide Candidate;
    hide Accepted;
    hide Alternatives;
    var x := Emit(k, ops);
    EmitMatches(k, ops, env);
    AcceptedIsNoExpander(k, ops, env);
    ExtractEmit(k, ops);
    NoNegativeCode(x, env);
    BothModesStrict(x, env);
    if Is2(x, SET) {
      if VoidConstant(x.left) {
        OnlyCall(x, env);
      } else {
        SetIndexAll(x, env);
        if BothModes(x, env) { StrictPairOnly(k, x, env); }
      }
    }
    EmitLower(k, r, x, env);
  }

  lemma EmitLower(k: int, r: int, x: Rtx, env: Env)
    requires Sane(env) && Matches(k, x, env) && Answer(r, x, env)
    ensures r != -1 ==> r in Alternatives(k)
  {
    hide Matches;
    hide Alternatives;
    Itself(k);
    HalfwordAlternatives();
    NoNegativeCode(x, env);
    BothModesStrict(x, env);
    if Is2(x, SET) && VoidConstant(x.left) {
      OnlyCall(x, env);
    } else if BothModes(x, env) {
      StrictPairOnly(k, x, env);
      if k >= 35 { LowerCodes(k, r, x, env); }
    } else {
      LowerCodes(k, r, x, env);
    }
  }

  lemma HalfwordAlternatives()
    ensures 35 in Alternatives(33)
  {}

  lemma AcceptedIsNoExpander(k: int, ops: seq<Rtx>, env: Env)
    requires Accepted(Pattern(k), ops, env)
    ensures Pattern(k) != Never
  {
    hide Pattern;
  }

  // Where codes 33 and 35 both match, no lower code does, nor the one between.
  lemma StrictPairOnly(k: int, x: Rtx, env: Env)
    requires Sane(env) && BothModes(x, env) && Matches(k, x, env)
    ensures k >= 35 || k == 33
  {
    hide Matches;
    BothModesStrict(x, env);
    SetIndexAll(x, env);
  }

  // Emission, recognition and extraction together.
  method RoundTrip(recog: Recog, k: int, ops: seq<Rtx>) returns (x: Rtx, r: int)
    requires recog.Ready() && Sane(recog.env) && 0 <= k < N_CODES
    requires Accepted(Pattern(k), ops, recog.env) && Condition(k, Emit(k, ops), recog.env)
    requires |ops| == |Extract(k, PC_RTX)|
    modifies recog.operand
    ensures x == Emit(k, ops)
    ensures if Lost(k, ops) then r == -1
      else Matches(r, x, recog.env) && r in Alternatives(k) && Holds(recog.operand, r, x)
    ensures r <= k || (k == 33 && r == 35)
    ensures r == k ==> |ops| <= recog.operand.Length && ops == recog.operand[..|ops|]
  {
    hide Matches;
    hide Pattern;
    hide Emit;
    hide Extract;
    hide Condition;
    hide Accepted;
    x := Emit(k, ops);
    r := recog.Recognise(x);
    EmitRecognised(k, ops, r, recog.env);
  }
}
