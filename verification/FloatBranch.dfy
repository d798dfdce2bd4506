// Floating-point branches on less-than (gen_blt and gen_ble in
// cmd/gcc/i486.gen/insn-emit.c), down to the flags the 80387 leaves.

module FloatBranch {
  import opened Common
  import opened Control
  import opened Rtl
  import opened Patterns
  import opened I486Description
  import opened I486Index
  import I486Jump

  // Extended floating modes of cmd/gcc/src/machmode.def, beside SF and DF.
  const XF := OtherMode(0)
  const TF := OtherMode(1)

  predicate FloatMode(m: Mode) { m == SF || m == DF || m == XF || m == TF }

  // The source of the insn that sets cc0, alone or first in a pair.
  predicate SetsFlags(body: Rtx) { Is2(body, SET) || SetPair(body) }

  function Comp(body: Rtx): Rtx
    requires SetsFlags(body)
  {
    if body.Parallel? then body.elems[0].right else body.right
  }

  function WithComp(body: Rtx, comp: Rtx): Rtx
    requires SetsFlags(body)
  {
    if body.Parallel? then
      var e := body.elems[0];
      Parallel(body.mode, [X2(SET, e.mode, e.left, comp), body.elems[1]])
    else X2(SET, body.mode, body.left, comp)
  }

  predicate FloatComparison(comp: Rtx) {
    if Is2(comp, COMPARE) then FloatMode(comp.left.mode) else FloatMode(comp.mode)
  }

  // The comparison with its operands exchanged; a test becomes a comparison of zero
  // with the tested value.  zero is CONST0_RTX.
  function Exchanged(comp: Rtx, zero: Mode -> Rtx): Rtx {
    if Is2(comp, COMPARE) then X2(COMPARE, comp.mode, comp.right, comp.left)
    else X2(COMPARE, VOID, zero(comp.mode), comp)
  }

  function Jump(c: Code2, target: Rtx): Rtx {
    X2(SET, VOID, PC_RTX, X3(IF_THEN_ELSE, VOID, X2(c, VOID, CC0_RTX, ConstInt(0)),
      X1(LABEL_REF, VOID, target), PC_RTX))
  }

  class Sequence {
    const zero: Mode -> Rtx
    var previous: Rtx       // the pattern of the last insn before the branch
    var emitted: seq<Rtx>   // what the expander has emitted

    constructor (zero: Mode -> Rtx, previous: Rtx)
      ensures this.zero == zero && this.previous == previous && emitted == []
    {
      this.zero := zero;
      this.previous := previous;
      emitted := [];
    }

    // The common part of the two expanders: exchange the operands of a previous
    // floating-point comparison in place.
    method ExchangePrevious() returns (changed: bool)
      requires SetsFlags(previous)
      modifies this`previous
      ensures changed == FloatComparison(Comp(old(previous)))
      ensures previous ==
          if changed then WithComp(old(previous), Exchanged(Comp(old(previous)), zero)) else old(previous)
    {
      var comp := if Is2(previous, SET) then previous.right else previous.elems[0].right;
      if if Is2(comp, COMPARE) then FloatMode(comp.left.mode) else FloatMode(comp.mode) {
        if Is2(comp, COMPARE) {
          var op0 := comp.left;
          var op1 := comp.right;
          comp := X2(COMPARE, comp.mode, op1, op0);
        } else {
          comp := X2(COMPARE, VOID, zero(comp.mode), comp);
        }
        previous := WithComp(previous, comp);
        return true;
      }
      return false;
    }

    method GenBlt(target: Rtx)
      requires SetsFlags(previous)
      modifies this
      ensures BranchEmitted(LT, GT, target, old(previous), old(emitted))
      ensures |emitted| == |old(emitted)| + 1 && Branches(LT, target, old(previous), zero)
    {
      var changed := ExchangePrevious();
      emitted := emitted + [Jump(if changed then GT else LT, target)];
      Emitted(LT, target, old(previous), old(emitted));
    }

    method GenBle(target: Rtx)
      requires SetsFlags(previous)
      modifies this
      ensures BranchEmitted(LE, GE, target, old(previous), old(emitted))
      ensures |emitted| == |old(emitted)| + 1 && Branches(LE, target, old(previous), zero)
    {
      var changed := ExchangePrevious();
      emitted := emitted + [Jump(if changed then GE else LE, target)];
      Emitted(LE, target, old(previous), old(emitted));
    }

    // The last insn, after the comparison as it now is, sends control to the target
    // exactly when the program asks, but for the unordered operands of a comparison
    // that is output reversed, and lets it fall through otherwise.  After an integer
    // comparison it asks cc0 itself.
    ghost predicate Branches(c: Code2, target: Rtx, before: Rtx, zero: Mode -> Rtx)
      requires SetsFlags(before)
      reads this
    {
      && emitted != [] && SetsFlags(previous)
      && var jump, comp := emitted[|emitted| - 1], Comp(before);
      && (!FloatComparison(comp) ==> previous == before && forall holds: Code2 -> bool ::
            Goes(jump, holds) == Some(if holds(c) then To(target) else Next))
      && (FloatComparison(comp) ==> Is2(Comp(previous), COMPARE) && forall f: Fpu | ZeroIsZero(comp, zero, f) ::
            AsAsked(jump, target, Comp(previous), f, Wanted(c, CcOrder(comp, f)), CcOrder(comp, f)))
    }

    lemma Emitted(c: Code2, target: Rtx, before: Rtx, emittedBefore: seq<Rtx>)
      requires (c == LT || c == LE) && SetsFlags(before)
      requires BranchEmitted(c, Opposite(c), target, before, emittedBefore)
      ensures Branches(c, target, before, zero)
    {
      hide Goes;
      hide Jump;
      hide AsAsked;
      hide Exchanged;
      hide FloatComparison;
      hide CcOrder;
      hide Wanted;
      var comp := Comp(before);
      if FloatComparison(comp) {
        ExchangedComp(before, zero);
        forall f: Fpu | ZeroIsZero(comp, zero, f)
          ensures AsAsked(Jump(Opposite(c), target), target, Comp(previous), f, Wanted(c, CcOrder(comp, f)),
                    CcOrder(comp, f))
        {
          JumpAsAsked(c, target, comp, zero, f);
        }
      } else {
        forall holds: Code2 -> bool { JumpGoes(c, target, holds); }
      }
    }

    // After a floating-point comparison, the exchanged one and the opposite branch;
    // after any other, nothing but the branch itself.
    ghost predicate BranchEmitted(c: Code2, opposite: Code2, target: Rtx, before: Rtx, emittedBefore: seq<Rtx>)
      requires SetsFlags(before)
      reads this
    {
      if FloatComparison(Comp(before)) then
        && previous == WithComp(before, Exchanged(Comp(before), zero))
        && emitted == emittedBefore + [Jump(opposite, target)]
      else
        previous == before && emitted == emittedBefore + [Jump(c, target)]
    }
  }

  // --------------------------------------------------------------------------
  // What the branch means (section 5.7 of IEEE 754-1985)

  datatype Float = NaN | NegInf | Finite(v: real) | PosInf

  datatype Order = Less | Equal | Greater | Unordered

  function Compare(a: Float, b: Float): Order {
    if a == NaN || b == NaN then Unordered
    else if a == b then Equal
    else if a == NegInf || b == PosInf then Less
    else if a == PosInf || b == NegInf then Greater
    else if a.v < b.v then Less
    else Greater
  }

  // The floating-point unit when the comparison is executed: the values of the
  // operands, and which operand is on the register stack.
  datatype Fpu = Fpu(value: Rtx -> Float, onStack: Rtx -> bool)

  // The order cc0 stands for.
  function CcOrder(comp: Rtx, f: Fpu): Order {
    if Is2(comp, COMPARE) then Compare(f.value(comp.left), f.value(comp.right))
    else Compare(f.value(comp), Finite(0.0))
  }

  // The branch a program asks for: never taken when the operands are unordered.
  predicate Wanted(c: Code2, o: Order) {
    match c
    case LT => o == Less
    case LE => o == Less || o == Equal
    case GT => o == Greater
    case GE => o == Greater || o == Equal
    case _ => false
  }

  // --------------------------------------------------------------------------
  // What the machine does

  // fnstsw; sahf after comparing the top of the stack with the value below it.
  datatype Flags = Flags(carry: bool, zero: bool)

  function FlagsOf(o: Order): Flags {
    match o
    case Less => Flags(true, false)
    case Equal => Flags(false, true)
    case Greater => Flags(false, false)
    case Unordered => Flags(true, true)
  }

  // output_8 and output_9: the operand on the stack must be compared from below, so
  // the two are exchanged and CC_REVERSED set when it is the first.
  function ReverseCompare(comp: Rtx, f: Fpu): bool
    requires Is2(comp, COMPARE)
  {
    f.onStack(comp.left)
  }

  function CompareFlags(comp: Rtx, f: Fpu): Flags
    requires Is2(comp, COMPARE)
  {
    if ReverseCompare(comp, f) then FlagsOf(Compare(f.value(comp.right), f.value(comp.left)))
    else FlagsOf(Compare(f.value(comp.left), f.value(comp.right)))
  }

  // alter_cond under CC_REVERSED.
  function AlterCond(c: Code2, reversed: bool): Code2 { if reversed then I486Jump.ReverseCond(c) else c }

  // The floating-point templates of output_117, output_120, output_122 and
  // output_125: jhi, jlo, jhs and jls.
  predicate Jumps(c: Code2, flags: Flags) {
    match c
    case GT => !flags.carry && !flags.zero
    case LT => flags.carry
    case GE => !flags.carry
    case LE => flags.carry || flags.zero
    case _ => false
  }

  predicate Taken(c: Code2, comp: Rtx, f: Fpu)
    requires Is2(comp, COMPARE)
  {
    Jumps(AlterCond(c, ReverseCompare(comp, f)), CompareFlags(comp, f))
  }

  ghost predicate ZeroIsZero(comp: Rtx, zero: Mode -> Rtx, f: Fpu) {
    !Is2(comp, COMPARE) ==> f.value(zero(comp.mode)) == Finite(0.0)
  }

  // The jump after the comparison comp goes to its target when it is wanted, and only
  // then, unless comp is output reversed and the operands are unordered.
  predicate AsAsked(jump: Rtx, target: Rtx, comp: Rtx, f: Fpu, wanted: bool, o: Order)
    requires Is2(comp, COMPARE)
  {
    var went := Goes(jump, c => Is2(comp, COMPARE) && Taken(c, comp, f));
    && (went == Some(To(target)) || went == Some(Next))
    && ((went == Some(To(target)) <==> wanted) <==> !(ReverseCompare(comp, f) && o == Unordered))
  }

  function Opposite(c: Code2): Code2 { if c == LT then GT else GE }

  // The emitted comparison and branch are taken exactly when the program asks, but for
  // one case: the second operand on the stack and the operands unordered.
  lemma BranchTaken(c: Code2, comp: Rtx, zero: Mode -> Rtx, f: Fpu)
    requires c == LT || c == LE
    requires FloatComparison(comp) && (!Is2(comp, COMPARE) ==> f.value(zero(comp.mode)) == Finite(0.0))
    ensures var e, o := Exchanged(comp, zero), CcOrder(comp, f);
      && (Wanted(Opposite(c), CcOrder(e, f)) <==> Wanted(c, o))
      && ((Taken(Opposite(c), e, f) <==> Wanted(c, o)) <==> !(ReverseCompare(e, f) && o == Unordered))
  {}

  lemma JumpGoes(c: Code2, target: Rtx, holds: Code2 -> bool)
    ensures Goes(Jump(c, target), holds) == Some(if holds(c) then To(target) else Next)
  {}

  lemma ExchangedComp(before: Rtx, zero: Mode -> Rtx)
    requires SetsFlags(before)
    ensures var after := WithComp(before, Exchanged(Comp(before), zero));
      SetsFlags(after) && Comp(after) == Exchanged(Comp(before), zero) && Is2(Comp(after), COMPARE)
  {}

  lemma JumpAsAsked(c: Code2, target: Rtx, comp: Rtx, zero: Mode -> Rtx, f: Fpu)
    requires (c == LT || c == LE) && FloatComparison(comp) && ZeroIsZero(comp, zero, f)
    ensures AsAsked(Jump(Opposite(c), target), target, Exchanged(comp, zero), f, Wanted(c, CcOrder(comp, f)),
              CcOrder(comp, f))
  {
    hide Goes;
    hide Jump;
    hide CcOrder;
    hide Taken;
    var e := Exchanged(comp, zero);
    JumpGoes(Opposite(c), target, d => Is2(e, COMPARE) && Taken(d, e, f));
    BranchTaken(c, comp, zero, f);
  }

  // A test against zero is never reversed: a constant is not on the stack.
  lemma TestTaken(c: Code2, comp: Rtx, zero: Mode -> Rtx, f: Fpu)
    requires c == LT || c == LE
    requires FloatComparison(comp) && !Is2(comp, COMPARE) && f.value(zero(comp.mode)) == Finite(0.0)
    requires !f.onStack(zero(comp.mode))
    ensures Taken(Opposite(c), Exchanged(comp, zero), f) <==> Wanted(c, CcOrder(comp, f))
  {
    BranchTaken(c, comp, zero, f);
  }

  // An input on which the branch is wrong: a branch on less-than, the second operand
  // on the register stack and the first one not a number.  The exchange puts the
  // stack operand first, the comparison is reversed for it, and the carry flag that
  // unordered operands leave takes the branch.
  lemma UnorderedBranchTaken(zero: Mode -> Rtx)
    ensures (
      var top, below := Reg(DF, 8), Mem(DF, Reg(SI, 6), false);
      var comp := X2(COMPARE, VOID, below, top);
      var f := Fpu(x => if x == below then NaN else Finite(1.0), x => x == top);
      var e := Exchanged(comp, zero);
      && FloatComparison(comp) && CcOrder(comp, f) == Unordered
      && ReverseCompare(e, f) && AlterCond(GT, true) == LT && CompareFlags(e, f).carry
      && Taken(GT, e, f) && !Wanted(LT, CcOrder(comp, f)))
  {}

  // Without the exchange the branch is wrong whenever the operands are unordered.
  lemma PlainBranchTakenUnordered(c: Code2, comp: Rtx, f: Fpu)
    requires (c == LT || c == LE) && Is2(comp, COMPARE) && CcOrder(comp, f) == Unordered
    ensures !Wanted(c, CcOrder(comp, f))
    ensures Taken(c, comp, f) <==> !ReverseCompare(comp, f)
  {}

  // --------------------------------------------------------------------------
  // The emitted jump is the insn of its condition, and the modes the expanders take for
  // floating-point are those of the floating-point insns.

  lemma JumpMatches(c: Code2, target: Rtx, env: Env)
    requires Sane(env) && c in {GT, LT, GE, LE}
    ensures var k := if c == GT then 117 else if c == LT then 120 else if c == GE then 122 else 125;
      Matches(k, Jump(c, target), env) && Extract(k, Jump(c, target)) == [target]
  {
    BranchShape(c, Jump(c, target), env);
  }

  lemma FloatModes()
    ensures FloatMode(SF) && FloatMode(DF) && forall m | m in {VOID, QI, HI, SI, DI} :: !FloatMode(m)
  {}

  // --------------------------------------------------------------------------
  // The exchanged comparison is still an insn: a comparison keeps its code, and a
  // test takes the code of the comparison in its mode.

  lemma ExchangedCompareMatches(k: int, body: Rtx, zero: Mode -> Rtx, env: Env)
    requires (k == 8 || k == 9) && SetPair(body) && Matches(k, body, env)
    requires Sane(env)
    ensures Matches(k, WithComp(body, Exchanged(Comp(body), zero)), env)
  {
    hide Matches;
    FlagPair(k, body, env);
    var m := if k == 8 then DF else SF;
    FloatCompareRow(k, m, body, env);
    FloatCompareRow(k, m, WithComp(body, Exchanged(Comp(body), zero)), env);
  }

  lemma ExchangedTestMatches(k: int, body: Rtx, zero: Mode -> Rtx, env: Env)
    requires (k == 3 || k == 4) && SetPair(body) && Matches(k, body, env) && Comp(body).mode != VOID
    requires Sane(env) && env.accepts(General, zero(SF), SF) && env.accepts(General, zero(DF), DF)
    ensures Matches(if k == 3 then 9 else 8, WithComp(body, Exchanged(Comp(body), zero)), env)
  {
    hide Matches;
    FlagPair(k, body, env);
    FloatTestRows(body, env);
    var y := WithComp(body, Exchanged(Comp(body), zero));
    if k == 3 { FloatCompareRow(9, SF, y, env); } else { FloatCompareRow(8, DF, y, env); }
  }
}
