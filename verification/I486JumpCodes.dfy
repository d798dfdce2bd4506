// The jumps and stored flags of the i486 by insn code: what code k outputs does what
// the pattern of code k says.

module I486JumpCodes {
  import opened Common
  import opened Control
  import opened Rtl
  import opened Patterns
  import opened I486Description
  import J = I486Jump

  predicate StoresFlag(k: int) { 105 <= k < 115 }

  // The conditional jumps that are no expanders.
  predicate Jumps(k: int) { 115 <= k < 137 && k != 119 && k != 124 }

  // output_105 to output_136 and the templates between them: one instruction, or None
  // where the output function gives up.  A stored flag tests what its jump would.
  function FlagOutput(k: int, s: J.Status): Option<J.Jump> {
    match k
    case 105 => Some(J.JEQ)
    case 106 => Some(J.JNE)
    case 107 => J.OutputJump(J.JGT, None, s)
    case 108 => Some(J.JHI)
    case 109 => J.OutputJump(J.JLT, Some(J.JMI), s)
    case 110 => Some(J.JLO)
    case 111 => J.OutputJump(J.JGE, Some(J.JPL), s)
    case 112 => Some(J.JHS)
    case 113 => J.OutputJump(J.JLE, None, s)
    case _ => Some(J.JLS)
  }

  function PlainOutput(k: int, s: J.Status): Option<J.Jump> {
    match k
    case 115 => Some(J.JEQ)
    case 116 => Some(J.JNE)
    case 117 => J.OutputJump(J.JGT, None, s)
    case 118 => Some(J.JHI)
    case 120 => J.OutputJump(J.JLT, Some(J.JMI), s)
    case 121 => Some(J.JLO)
    case 122 => J.OutputJump(J.JGE, Some(J.JPL), s)
    case 123 => Some(J.JHS)
    case 125 => J.OutputJump(J.JLE, None, s)
    case _ => Some(J.JLS)
  }

  function InvertedOutput(k: int, s: J.Status): Option<J.Jump> {
    match k
    case 127 => Some(J.JNE)
    case 128 => Some(J.JEQ)
    case 129 => J.OutputJump(J.JLE, None, s)
    case 130 => Some(J.JLS)
    case 131 => J.OutputJump(J.JGE, Some(J.JPL), s)
    case 132 => Some(J.JHS)
    case 133 => J.OutputJump(J.JLT, Some(J.JMI), s)
    case 134 => Some(J.JLO)
    case 135 => J.OutputJump(J.JGT, None, s)
    case _ => Some(J.JHI)
  }

  function CodeOutput(k: int, s: J.Status): Option<J.Jump> {
    if k < 115 then FlagOutput(k, s) else if k < 127 then PlainOutput(k, s) else InvertedOutput(k, s)
  }

  // The condition in the pattern of code k.
  function ConditionOf(k: int): Code2 {
    var p := Pattern(k);
    if p.P2? && p.b.P2? then p.b.c2 else if p.P2? && p.b.P3? && p.b.a.P2? then p.b.a.c2 else EQ
  }

  // The template of k's form with the condition d.
  function Form(k: int, d: Code2): Pat {
    if k < 115 then StoreFlag(d) else if k < 127 then Branch(d) else BranchInverted(d)
  }

  // The code of that template, under which the insn is recognised once final has
  // altered its condition.
  function Recoded(k: int, d: Code2): int {
    var i := match d
      case EQ => 0
      case NE => 1
      case GT => 2
      case GTU => 3
      case LT => 4
      case LTU => 5
      case GE => 6
      case GEU => 7
      case LE => 8
      case _ => 9;
    if k < 115 then 105 + i
    else if k < 127 then 115 + i + (if i >= 8 then 2 else if i >= 4 then 1 else 0)
    else 127 + i
  }

  // What the insn does: Some(true) if it jumps or stores one, None if its test is
  // called back.
  function CodeTaken(k: int, s: J.Status, f: J.Flags): Option<bool> {
    match J.AlterCond(ConditionOf(k), s)
    case Always => Some(k < 127)
    case Never => Some(k >= 127)
    case Cond(d) =>
      match CodeOutput(Recoded(k, d), s)
      case None => None
      case Some(j) => Some(J.Holds(j, f))
  }

  lemma CodeText(k: int)
    requires StoresFlag(k) || Jumps(k)
    ensures Pattern(k) == Form(k, ConditionOf(k)) && J.IsCondition(ConditionOf(k))
  {}

  lemma RecodedMeans(k: int, d: Code2, s: J.Status)
    requires (StoresFlag(k) || Jumps(k)) && J.IsCondition(d)
    ensures CodeOutput(Recoded(k, d), s) == if k < 127 then J.Output(d, s) else J.OutputInverted(d, s)
  {}

  lemma RecodedSays(k: int, d: Code2)
    requires (StoresFlag(k) || Jumps(k)) && J.IsCondition(d)
    ensures Pattern(Recoded(k, d)) == Form(k, d)
  {}

  lemma SameTaken(k: int, s: J.Status, f: J.Flags)
    requires StoresFlag(k) || Jumps(k)
    ensures CodeTaken(k, s, f) == J.Taken(ConditionOf(k), k >= 127, s, f)
  {
    hide ConditionOf;
    hide Recoded;
    hide CodeOutput;
    hide J.Holds;
    CodeText(k);
    var c := ConditionOf(k);
    AlteredIsCondition(c, s);
    if J.AlterCond(c, s).Cond? { RecodedMeans(k, J.AlterCond(c, s).code, s); }
  }

  lemma AlteredIsCondition(c: Code2, s: J.Status)
    requires J.IsCondition(c)
    ensures J.AlterCond(c, s).Cond? ==> J.IsCondition(J.AlterCond(c, s).code)
  {}

  // A jump goes to its label exactly when the insn built from its template sends
  // control there, for every source of the flags, unless it calls its test back.
  lemma CodeJumps(k: int, target: Rtx, m: Mode, s: J.Source)
    requires Jumps(k) && J.InRange(s, m)
    ensures var went := Goes(Build(Pattern(k), [target]), c => J.Wanted(c, m, J.Left(s), J.Right(s)));
      var t := CodeTaken(k, J.StatusAfter(s), J.FlagsAfter(s, m));
      && (went == Some(To(target)) || went == Some(Next))
      && (t.None? <==> s.Result? && ConditionOf(k) in {GT, LE})
      && (t.Some? ==> (t.value <==> went == Some(To(target))))
  {
    hide J.Wanted;
    hide J.Taken;
    hide Pattern;
    hide ConditionOf;
    hide CodeTaken;
    CodeText(k);
    SameTaken(k, J.StatusAfter(s), J.FlagsAfter(s, m));
    J.JumpTaken(ConditionOf(k), k >= 127, m, s);
    BuiltGoes(k, ConditionOf(k), target, c => J.Wanted(c, m, J.Left(s), J.Right(s)));
  }

  lemma BuiltGoes(k: int, c: Code2, target: Rtx, holds: Code2 -> bool)
    requires Jumps(k)
    ensures Goes(Build(Form(k, c), [target]), holds)
      == Some(if holds(c) == (k < 127) then To(target) else Next)
  {
    hide Build;
    hide Goes;
    var p := Form(k, c);
    var ops := [target];
    BuildSet(p, ops);
    BuildStep(p.a, ops);
    BuildStep(p.b.a, ops);
    BuildStep(p.b.a.a, ops);
    BuildStep(p.b.a.b, ops);
    LabelBuilt(p.b.b, ops);
    LabelBuilt(p.b.c, ops);
    IfGoes(c, Build(p.b.b, ops), Build(p.b.c, ops), VOID, VOID, VOID, holds);
  }

  lemma LabelBuilt(p: Pat, ops: seq<Rtx>)
    requires |ops| == 1 && (p == Label(0) || p == Lit(PC_RTX))
    ensures Arm(Build(p, ops)) == Some(if p == Label(0) then To(ops[0]) else Next)
  {
    BuildStep(p, ops);
  }

  lemma IfGoes(c: Code2, a: Rtx, b: Rtx, m: Mode, n: Mode, o: Mode, holds: Code2 -> bool)
    ensures Goes(X2(SET, m, PC_RTX, X3(IF_THEN_ELSE, n, X2(c, o, CC0_RTX, ConstInt(0)), a, b)), holds)
      == Arm(if holds(c) then a else b)
  {}

  // A stored flag is one exactly when the condition of its pattern holds.
  lemma CodeStores(k: int, m: Mode, s: J.Source)
    requires StoresFlag(k) && J.InRange(s, m)
    ensures Pattern(k).P2? && Pattern(k).b.P2?
    ensures var t := CodeTaken(k, J.StatusAfter(s), J.FlagsAfter(s, m));
      && (t.None? <==> s.Result? && ConditionOf(k) in {GT, LE})
      && (t.Some? ==> t.value == J.Wanted(Pattern(k).b.c2, m, J.Left(s), J.Right(s)))
  {
    hide J.Wanted;
    hide J.Taken;
    hide CodeTaken;
    CodeText(k);
    SameTaken(k, J.StatusAfter(s), J.FlagsAfter(s, m));
    J.JumpTaken(ConditionOf(k), false, m, s);
  }
}
