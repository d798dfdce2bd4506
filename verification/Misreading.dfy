// Which insns with a constant destination the recognisers misread, when the operand
// predicates are the compiler's own: every such constant is a general operand in every
// mode, so only the source matters.

module Misreading {
  import opened Rtl
  import opened Patterns
  import opened OperandPredicates
  import I = I486Description
  import IR = I486Recog
  import M = M68kDescription
  import MM = M68kMeaning
  import MR = M68kRecog

  // A template (set (match_operand 0 "general_operand") source).
  predicate OperandDestination(p: Pat) { p.P2? && p.c2 == SET && p.a.Op? && p.a.pred == General && p.a.m != VOID }

  // Any other destination admits no constant, but for that of the call with a value.
  predicate NoConstantDestination(p: Pat) {
    if p.P2? && p.c2 == SET then RefusesConstant(p.a)
    else !p.Op? && !p.Dup? && !p.Lit?
  }

  predicate RefusesConstant(a: Pat) {
    match a
    case Op(_, pred, m) => (pred == Push || pred == Register) && m != VOID
    case Lit(y) => y == CC0_RTX || y == PC_RTX
    case P1(c, _, _) => c == STRICT_LOW_PART
    case P3(_, _, _, _, _) => true
    case _ => false
  }

  // The source of p fits that of x.
  predicate SourceFits(p: Pat, x: Rtx, env: Env) {
    OperandDestination(p) && Is2(x, SET) && Shape(p.b, x.right, env)
  }

  lemma ConstantIsGeneral(x: Rtx, m: Mode, t: Target)
    requires VoidConstant(x)
    ensures GeneralOperand(x, m, t) && !PushOperand(x, m, t) && !RegisterOperand(x, m, t)
  {
    InsideKind(x);
  }

  lemma ConstantShape(p: Pat, x: Rtx, env: Env, t: Target)
    requires Is2(x, SET) && VoidConstant(x.left)
    ensures OperandDestination(p) ==>
        (Shape(p, x, With(env, t)) <==> (p.m == VOID || p.m == x.mode) && SourceFits(p, x, With(env, t)))
    ensures NoConstantDestination(p) ==> !Shape(p, x, With(env, t))
  {
    ShapeStep(p, x, With(env, t));
    if p.P2? && p.a.Op? { ConstantIsGeneral(x.left, p.a.m, t); }
    if p.P2? { ShapeStep(p.a, x.left, With(env, t)); }
  }

  lemma I486DestinationsLow(k: int)
    requires k < 56
    ensures OperandDestination(I.Pattern(k)) || NoConstantDestination(I.Pattern(k))
    ensures OperandDestination(I.Pattern(k)) ==> I.Pattern(k).m == VOID
  {}

  lemma I486DestinationsHigh(k: int)
    requires 56 <= k && k != 140
    ensures OperandDestination(I.Pattern(k)) || NoConstantDestination(I.Pattern(k))
    ensures OperandDestination(I.Pattern(k)) ==> I.Pattern(k).m == VOID
  {}

  // On the i486 an insn with a constant destination is misread exactly when its source
  // is one that some template with an operand destination has.
  lemma I486ConstantMisread(x: Rtx, env: Env, t: Target)
    requires Is2(x, SET) && VoidConstant(x.left)
    ensures IR.Misread(x, With(env, t)) <==>
        exists k :: SourceFits(I.Pattern(k), x, With(env, t)) && I.Condition(k, With(env, t))
  {
    hide I.Pattern;
    hide I.Condition;
    hide SourceFits;
    hide OperandDestination;
    hide NoConstantDestination;
    var e := With(env, t);
    forall k
      ensures k != 140 && I.Matches(k, x, e) <==> SourceFits(I.Pattern(k), x, e) && I.Condition(k, e)
    {
      I486Fits(k, x, env, t);
    }
  }

  lemma I486Fits(k: int, x: Rtx, env: Env, t: Target)
    requires Is2(x, SET) && VoidConstant(x.left)
    ensures var e := With(env, t);
      k != 140 && I.Matches(k, x, e) <==> SourceFits(I.Pattern(k), x, e) && I.Condition(k, e)
  {
    hide I.Pattern;
    hide Shape;
    var e := With(env, t);
    if k == 140 {
      I486Call();
    } else {
      if k < 56 { I486DestinationsLow(k); } else { I486DestinationsHigh(k); }
      ConstantShape(I.Pattern(k), x, env, t);
      if k == 66 || k == 67 { I486Pairs(k, x, e); }
    }
  }

  lemma I486Call()
    ensures !OperandDestination(I.Pattern(140))
  {}

  lemma I486Pairs(k: int, x: Rtx, env: Env)
    requires Is2(x, SET) && (k == 66 || k == 67)
    ensures !OperandDestination(I.Pattern(k)) && !I.Matches(k, x, env)
  {}

  // --------------------------------------------------------------------------
  // The m68k

  lemma M68kDestinations0(k: int)
    requires k < 53 && k != 244
    ensures OperandDestination(M.Pattern(k)) || NoConstantDestination(M.Pattern(k))
    ensures OperandDestination(M.Pattern(k)) ==> M.Pattern(k).m == VOID && k !in DUPLICATED
  {}

  lemma M68kDestinations53(k: int)
    requires 53 <= k < 102 && k != 244
    ensures OperandDestination(M.Pattern(k)) || NoConstantDestination(M.Pattern(k))
    ensures OperandDestination(M.Pattern(k)) ==> M.Pattern(k).m == VOID && k !in DUPLICATED
  {}

  lemma M68kDestinations102(k: int)
    requires 102 <= k < 143 && k != 244
    ensures OperandDestination(M.Pattern(k)) || NoConstantDestination(M.Pattern(k))
    ensures OperandDestination(M.Pattern(k)) ==> M.Pattern(k).m == VOID && k !in DUPLICATED
  {}

  lemma M68kDestinations143(k: int)
    requires 143 <= k < 193 && k != 244
    ensures OperandDestination(M.Pattern(k)) || NoConstantDestination(M.Pattern(k))
    ensures OperandDestination(M.Pattern(k)) ==> M.Pattern(k).m == VOID && k !in DUPLICATED
  {}

  lemma M68kDestinations193(k: int)
    requires 193 <= k < 235 && k != 244
    ensures OperandDestination(M.Pattern(k)) || NoConstantDestination(M.Pattern(k))
    ensures OperandDestination(M.Pattern(k)) ==> M.Pattern(k).m == VOID && k !in DUPLICATED
  {}

  lemma M68kDestinations235(k: int)
    requires 235 <= k && k != 244
    ensures OperandDestination(M.Pattern(k)) || NoConstantDestination(M.Pattern(k))
    ensures OperandDestination(M.Pattern(k)) ==> M.Pattern(k).m == VOID && k !in DUPLICATED
  {}

  // The codes with repeated operands.
  const DUPLICATED: set<int> := {81, 83, 93, 95, 130, 131, 190, 240, 241, 242}

  lemma M68kFits(k: int, x: Rtx, env: Env, t: Target)
    requires Is2(x, SET) && VoidConstant(x.left)
    ensures var e := With(env, t);
      k != 244 && M.Matches(k, x, e) <==> SourceFits(M.Pattern(k), x, e) && M.Condition(k, x, e)
  {
    hide M.Pattern;
    hide M.Condition;
    hide Shape;
    hide NoConstantDestination;
    if k == 244 {
      M68kCall();
    } else {
      if k < 53 { M68kDestinations0(k); }
      else if k < 102 { M68kDestinations53(k); }
      else if k < 143 { M68kDestinations102(k); }
      else if k < 193 { M68kDestinations143(k); }
      else if k < 235 { M68kDestinations193(k); }
      else { M68kDestinations235(k); }
      ConstantShape(M.Pattern(k), x, env, t);
    }
  }

  lemma M68kCall()
    ensures !OperandDestination(M.Pattern(244))
  {}

  lemma NotStrict(x: Rtx, env: Env)
    requires Sane(env) && Is2(x, SET) && VoidConstant(x.left)
    ensures !MM.BothModes(x, env)
  {
    MM.BothModesStrict(x, env);
  }

  // The same on the m68k.
  lemma M68kConstantMisread(x: Rtx, env: Env, t: Target)
    requires Sane(With(env, t)) && Is2(x, SET) && VoidConstant(x.left)
    ensures MR.Misread(x, With(env, t)) <==>
        exists k :: SourceFits(M.Pattern(k), x, With(env, t)) && M.Condition(k, x, With(env, t))
  {
    hide M.Pattern;
    hide M.Condition;
    hide M.Matches;
    hide SourceFits;
    hide MM.BothModes;
    var e := With(env, t);
    NotStrict(x, e);
    forall k
      ensures k != 244 && M.Matches(k, x, e) <==> SourceFits(M.Pattern(k), x, e) && M.Condition(k, x, e)
    {
      M68kFits(k, x, env, t);
    }
  }

  // The low part of a constant is misread exactly when what is moved into it is a
  // constant too.
  lemma M68kStrictMisread(x: Rtx, env: Env, t: Target)
    requires MM.StrictConstant(x)
    ensures MR.Misread(x, With(env, t)) <==> VoidConstant(x.right)
  {
    hide M.Matches;
    var e := With(env, t);
    MM.StrictMoveRow(35, QI, x, e);
    MM.StrictMoveRow(33, HI, x, e);
    ConstantIsGeneral(x.left.arg, QI, t);
    ConstantIsGeneral(x.left.arg, HI, t);
    if VoidConstant(x.right) {
      ConstantIsGeneral(x.right, QI, t);
      ConstantIsGeneral(x.right, HI, t);
    }
  }
}
