// The output functions of the m68k by insn code: what code k outputs does what the
// pattern of code k says.

module M68kCodes {
  import opened Common
  import opened Control
  import opened Rtl
  import opened Patterns
  import opened M68kDescription
  import opened M68kMachine
  import A = Arithmetic
  import AddSub
  import BitField
  import CountedLoop
  import NarrowLogic
  import RtlValue
  import ZeroExtend

  function ModeSize(m: Mode): Size { if m == QI then 1 else if m == HI then 2 else 4 }

  // --------------------------------------------------------------------------
  // What the source of pattern p says on operand values v: the value of what the
  // template builds from registers that hold them.

  function Registers(modes: seq<Mode>): seq<Rtx> {
    seq(|modes|, i requires 0 <= i < |modes| => Rtl.Reg(modes[i], i))
  }

  function Holding(v: seq<int>): RtlValue.Machine {
    RtlValue.Machine(n => if 0 <= n < |v| then v[n] else 0, (_, _) => 0, (_, _) => 0)
  }

  function Source(p: Pat): Pat { if p.P2? then p.b else p }

  function Target(p: Pat): Pat { if p.P2? then p.a else p }

  function Says(k: int, modes: seq<Mode>, v: seq<int>): int {
    RtlValue.Value(Build(Source(Pattern(k)), Registers(modes)), Holding(v))
  }

  // Codes 46 to 48

  function ExtendModes(k: int): seq<Mode> { [if k == 47 then HI else SI, if k == 46 then HI else QI] }

  lemma ExtendText(k: int)
    requires 46 <= k <= 48
    ensures var d, m := ExtendModes(k)[0], ExtendModes(k)[1]; Pattern(k) == Unary(d, ZERO_EXTEND, d, m)
  {}

  lemma ExtendSays(k: int, v: int)
    requires 46 <= k <= 48 && 0 <= v < Range(ModeSize(ExtendModes(k)[1]))
    ensures Says(k, ExtendModes(k), [0, v]) == v
  {
    hide Pattern;
    ExtendText(k);
    var d, m := ExtendModes(k)[0], ExtendModes(k)[1];
    var ops := Registers(ExtendModes(k));
    assert Build(Op(1, General, m), ops) == Rtl.Reg(m, 1);
    assert Build(Source(Pattern(k)), ops) == X1(ZERO_EXTEND, d, Rtl.Reg(m, 1));
    assert RtlValue.Value(Rtl.Reg(m, 1), Holding([0, v])) == v;
  }

  // The destination gets what the pattern of the code says of the source, in the modes
  // of its operands, but for the one case ZeroExtend names.
  lemma ZeroExtendCode(k: int, dst: Operand, src: Operand, s: State)
    requires ZeroExtend.Code(k) && ZeroExtend.Admitted(k, dst, src, s)
    ensures var from, to := ModeSize(ExtendModes(k)[1]), ModeSize(ExtendModes(k)[0]);
      Same(Run(ZeroExtend.Output(k, dst, src), s),
           Put(dst, Locate(src, s, from).0, to, Says(k, ExtendModes(k), [0, Get(src, s, from)])))
      <==> !ZeroExtend.StackPopped(k, dst)
  {
    hide Says;
    hide ZeroExtend.Output;
    hide ZeroExtend.Admitted;
    hide Run;
    hide Put;
    hide Get;
    hide Same;
    hide Locate;
    ZeroExtend.GetRange(src, s, ZeroExtend.From(k));
    ExtendSays(k, Get(src, s, ZeroExtend.From(k)));
    ZeroExtend.ZeroExtends(k, dst, src, s);
  }

  // Codes 78 and 90

  lemma SumText()
    ensures Pattern(78) == Binary(SI, PLUS, SI, SI, SI) && Pattern(90) == Binary(SI, MINUS, SI, SI, SI)
  {}

  lemma SumSays(a: int, b: int)
    requires 0 <= a < WORD && 0 <= b < WORD
    ensures Says(78, [SI, SI, SI], [0, a, b]) == Wrap(a + b) && Says(90, [SI, SI, SI], [0, a, b]) == Wrap(a - b)
  {
    hide Pattern;
    SumText();
    var ops := Registers([SI, SI, SI]);
    assert Build(Op(1, General, SI), ops) == Rtl.Reg(SI, 1) && Build(Op(2, General, SI), ops) == Rtl.Reg(SI, 2);
    var m := Holding([0, a, b]);
    assert RtlValue.Value(Rtl.Reg(SI, 1), m) == a && RtlValue.Value(Rtl.Reg(SI, 2), m) == b;
  }

  lemma WordRange(x: Operand, s: State)
    ensures 0 <= Get(x, s, 4) < WORD
  {}

  lemma AddCode(op0: Operand, op1: Operand, op2: Operand, symbolic: bool, s: State)
    requires AddSub.AddPermitted(op0, op1, op2, symbolic)
    ensures Run(AddSub.AddOutput(op0, op1, op2, symbolic), s)
        == Put(op0, AddSub.Fetched(op1, op2, s), 4, Says(78, [SI, SI, SI], [0, Get(op1, s, 4), Get(op2, s, 4)]))
        <==> (AddSub.LongOverBase(op0, op1, op2) ==> Get(op2, s, 4) == Get(op1, s, 4))
  {
    hide Says;
    hide AddSub.AddOutput;
    hide Run;
    hide Put;
    hide Get;
    WordRange(op1, s);
    WordRange(op2, s);
    SumSays(Get(op1, s, 4), Get(op2, s, 4));
    AddSub.AddCorrect(op0, op1, op2, symbolic, s);
  }

  lemma SubCode(op0: Operand, op1: Operand, op2: Operand, symbolic: bool, s: State)
    requires AddSub.SubPermitted(op0, op1, op2, symbolic)
    ensures Run(AddSub.SubOutput(op0, op1, op2, symbolic), s)
        == Put(op0, AddSub.Fetched(op1, op2, s), 4, Says(90, [SI, SI, SI], [0, Get(op1, s, 4), Get(op2, s, 4)]))
  {
    hide Says;
    hide AddSub.SubOutput;
    hide Run;
    hide Put;
    hide Get;
    WordRange(op1, s);
    WordRange(op2, s);
    SumSays(Get(op1, s, 4), Get(op2, s, 4));
    AddSub.SubCorrect(op0, op1, op2, symbolic, s);
  }

  // --------------------------------------------------------------------------
  // Codes 132, 137 and 140, bit by bit

  predicate BitOf(v: bv32, i: int) { v & NarrowLogic.Power(i) != 0 }

  lemma LogicText()
    ensures Pattern(132) == Binary(SI, AND, SI, SI, SI)
    ensures Pattern(137) == Binary(SI, IOR, SI, SI, SI)
    ensures Pattern(140) == Binary(SI, XOR, SI, SI, SI)
  {}

  predicate OneBit(m: bv32) { m != 0 && m & (m - 1) == 0 }

  lemma PowerIsOneBit(i: int)
    requires 0 <= i < 32
    ensures OneBit(NarrowLogic.Power(i))
  {}

  lemma MaskedBits(a: bv32, b: bv32, m: bv32)
    requires OneBit(m)
    ensures (a & b) & m != 0 <==> a & m != 0 && b & m != 0
    ensures (a | b) & m != 0 <==> a & m != 0 || b & m != 0
    ensures (a ^ b) & m != 0 <==> (a & m != 0) != (b & m != 0)
  {}

  function LogicCodeOf(op: NarrowLogic.Op): Code2 {
    match op
    case And => AND
    case Or => IOR
    case Xor => XOR
  }

  lemma AppliedBits(op: NarrowLogic.Op, a: bv32, b: bv32, i: int)
    requires 0 <= i < 32
    ensures BitOf(NarrowLogic.Apply(op, a, b), i) <==> A.OnBits(LogicCodeOf(op), BitOf(a, i), BitOf(b, i))
  {
    hide NarrowLogic.Power;
    hide OneBit;
    PowerIsOneBit(i);
    MaskedBits(a, b, NarrowLogic.Power(i));
  }

  // In a register, every bit of the result is what the code's pattern makes of the
  // bits of the register and of the constant.
  lemma LogicCode(k: int, v: bv32, log: int, r: bv32, i: int)
    requires k in {132, 137, 140} && 0 <= i < 32 && (log >= 0 ==> v == NarrowLogic.Power(log))
    ensures Source(Pattern(k)).P2?
    ensures var out := if k == 132 then NarrowLogic.AndOutput(NarrowLogic.DataReg, v)
        else if k == 137 then NarrowLogic.OrOutput(NarrowLogic.DataReg, v, log)
        else NarrowLogic.XorOutput(NarrowLogic.DataReg, v);
      BitOf(NarrowLogic.InRegister(out, r), i) <==> A.OnBits(Source(Pattern(k)).c2, BitOf(r, i), BitOf(v, i))
  {
    hide Pattern;
    hide NarrowLogic.Apply;
    hide NarrowLogic.InRegister;
    hide NarrowLogic.Power;
    hide BitOf;
    hide NarrowLogic.AndOutput;
    hide NarrowLogic.OrOutput;
    hide NarrowLogic.XorOutput;
    LogicText();
    NarrowLogic.AndInRegister(v, r);
    NarrowLogic.OrInRegister(v, log, r);
    NarrowLogic.XorInRegister(v, r);
    AppliedBits(NarrowLogic.And, r, v, i);
    AppliedBits(NarrowLogic.Or, r, v, i);
    AppliedBits(NarrowLogic.Xor, r, v, i);
  }

  // In memory the long becomes a value with those bits, and no other byte changes.
  lemma LogicInMemoryCode(k: int, p: NarrowLogic.Place, v: bv32, log: int, m: int -> bv8, a: int) returns (w: bv32)
    requires k in {132, 137, 140} && p.Memory? && -1 <= log < 32 && (log >= 0 ==> v == NarrowLogic.Power(log))
    ensures Source(Pattern(k)).P2?
    ensures forall i | 0 <= i < 32 ::
        BitOf(w, i) <==> A.OnBits(Source(Pattern(k)).c2, BitOf(NarrowLogic.Long(m, a), i), BitOf(v, i))
    ensures var out := if k == 132 then NarrowLogic.AndOutput(p, v)
        else if k == 137 then NarrowLogic.OrOutput(p, v, log) else NarrowLogic.XorOutput(p, v);
      NarrowLogic.Becomes(NarrowLogic.InMemory(out, m, a), m, a, w)
  {
    hide Pattern;
    hide NarrowLogic.Apply;
    hide NarrowLogic.InMemory;
    hide NarrowLogic.Power;
    hide NarrowLogic.Long;
    hide NarrowLogic.Becomes;
    hide BitOf;
    hide NarrowLogic.AndOutput;
    hide NarrowLogic.OrOutput;
    hide NarrowLogic.XorOutput;
    LogicText();
    NarrowLogic.AndInMemory(p, v, m, a);
    NarrowLogic.OrInMemory(p, v, log, m, a);
    NarrowLogic.XorInMemory(p, v, m, a);
    var op := if k == 132 then NarrowLogic.And else if k == 137 then NarrowLogic.Or else NarrowLogic.Xor;
    w := NarrowLogic.Apply(op, NarrowLogic.Long(m, a), v);
    forall i | 0 <= i < 32
      ensures BitOf(w, i) <==> A.OnBits(Source(Pattern(k)).c2, BitOf(NarrowLogic.Long(m, a), i), BitOf(v, i))
    {
      AppliedBits(op, NarrowLogic.Long(m, a), v, i);
    }
  }

  // --------------------------------------------------------------------------
  // Codes 185 to 187.  The place of the field as an operand of the machine.

  predicate PlacedAt(x: Rtx, o: Operand) { if Is0(x, REG) then o.R? && o.n == x.val < 8 else o.M? }

  // The field (zero_extract:SI place width position), and the output's fast path.
  predicate FastField(y: Rtx, o: Operand) {
    && y.X3? && Is0(y.snd, CONST_INT) && Is0(y.thd, CONST_INT) && PlacedAt(y.fst, o)
    && (o.R? ==> y.thd.val + y.snd.val == 32)
  }

  function Width(y: Rtx): int { if y.X3? && y.snd.X0? then y.snd.val else 0 }

  function Position(y: Rtx): int { if y.X3? && y.thd.X0? then y.thd.val else 0 }

  // The bits of the field, the first one the most significant.
  function FieldBits(y: Rtx, o: Operand, s: State): int {
    BitField.Field(BitField.BitsOf(o, s), Position(y), if Width(y) >= 0 then Width(y) else 0)
  }

  // The fields the insn conditions admit are those BitField speaks of.
  lemma FieldIsUnit(k: int, x: Rtx, env: Env, o: Operand)
    requires 185 <= k < 188 && Matches(k, x, env)
    ensures x.X2? && var y := if k == 185 then x.left else x.right;
      y.X3? && (FastField(y, o) ==>
        && Width(y) in {8, 16} && BitField.Unit(o, Position(y), Width(y) / 8))
  {
    hide Pattern;
    hide Shape;
    FieldText(k);
    ShapeStep(Pattern(k), x, env);
    if k == 185 { ShapeStep(Pattern(k).a, x.left, env); } else { ShapeStep(Pattern(k).b, x.right, env); }
  }

  lemma FieldText(k: int)
    requires 185 <= k < 188
    ensures Pattern(k).P2? && (if k == 185 then Pattern(k).a.P3? else Pattern(k).b.P3?)
  {}

  lemma InsertCode(x: Rtx, env: Env, o: Operand, src: Register, s: State)
    requires Matches(185, x, env) && x.X2? && FastField(x.left, o) && src < 8
    ensures Width(x.left) in {8, 16}
    ensures var n, pos := Width(x.left) / 8, Position(x.left);
      var t := Run(BitField.InsertOutput(o, pos, n, R(src)), s);
      && FieldBits(x.left, o, t) == s.reg[src] % Pow2(Width(x.left))
      && (forall q: Register | o != R(q) :: t.reg[q] == s.reg[q])
      && (o.R? ==> t.mem == s.mem)
      && (o.R? ==> forall p | 0 <= p < pos :: BitField.BitsOf(o, t)(p) == BitField.BitsOf(o, s)(p))
      && (o.M? ==> forall a: Word | Wrap(a - Locate(BitField.At(o, pos), s, n).1) >= n :: t.mem(a) == s.mem(a))
  {
    hide Matches;
    hide BitField.Field;
    hide BitField.InsertOutput;
    hide Run;
    hide Pow2;
    FieldIsUnit(185, x, env, o);
    BitField.Powers();
    BitField.InsertCorrect(o, Position(x.left), Width(x.left) / 8, R(src), s);
  }

  lemma ExtractCode(x: Rtx, env: Env, o: Operand, dst: Register, s: State)
    requires Matches(186, x, env) && x.X2? && FastField(x.right, o) && dst < 8 && !Mentions(dst, o)
    ensures Width(x.right) in {8, 16}
    ensures Run(BitField.ExtractOutput(o, Position(x.right), Width(x.right) / 8, R(dst)), s)
        == Put(R(dst), s, 4, FieldBits(x.right, o, s))
  {
    hide Matches;
    hide BitField.Field;
    hide BitField.ExtractOutput;
    hide Run;
    FieldIsUnit(186, x, env, o);
    BitField.ExtractCorrect(o, Position(x.right), Width(x.right) / 8, R(dst), s);
  }

  // The value of a field of width bits as a signed number.
  function SignedField(v: int, width: nat): int {
    if 2 * v < Pow2(width) then v else v - Pow2(width)
  }

  lemma ExtractSignedCode(x: Rtx, env: Env, o: Operand, dst: Register, s: State)
    requires Matches(187, x, env) && x.X2? && FastField(x.right, o) && dst < 8
    ensures Width(x.right) in {8, 16}
    ensures Run(BitField.ExtractSignedOutput(o, Position(x.right), Width(x.right) / 8, R(dst)), s)
        == Put(R(dst), s, 4, SignedField(FieldBits(x.right, o, s), Width(x.right)))
  {
    hide Matches;
    hide BitField.Field;
    hide BitField.ExtractSignedOutput;
    hide Run;
    hide Pow2;
    FieldIsUnit(187, x, env, o);
    BitField.Powers();
    var n, v := Width(x.right) / 8, FieldBits(x.right, o, s);
    BitField.UnitIsField(o, Position(x.right), n, s);
    BitField.ExtractSignedCorrect(o, Position(x.right), n, R(dst), s);
    SignedUnit(v, n);
  }

  lemma SignedUnit(v: int, n: Size)
    requires n < 4 && 0 <= v < Range(n)
    ensures SignedField(v, 8 * n) == if n == 1 then Signed8(v) else Signed16(v)
  {
    BitField.Powers();
  }

  // --------------------------------------------------------------------------
  // Codes 240 to 242: the condition, the jump and the new counter that the pattern
  // gives for a counter of value v.

  predicate Meets(c: Rtx, m: RtlValue.Machine) {
    match c
    case X2(NE, _, X2(COMPARE, _, a, b), X0(CONST_INT, _, 0)) =>
      RtlValue.Value(a, m) % A.Range(a.mode) != RtlValue.Value(b, m) % A.Range(a.mode)
    case X2(GE, _, a, X0(CONST_INT, _, 0)) => A.Signed(a.mode, RtlValue.Value(a, m) % A.Range(a.mode)) >= 0
    case _ => false
  }

  function CountMode(k: int): Mode { if k == 240 then HI else SI }

  function CountInsn(k: int, target: Rtx): Rtx { Build(Pattern(k), [Rtl.Reg(CountMode(k), 0), target]) }

  function NewCount(k: int, target: Rtx, v: int): int {
    var x := CountInsn(k, target);
    RtlValue.Value(Xexp(Xvecexp(x, 1), 1), Holding([v])) % A.Range(CountMode(k))
  }

  function CountGoes(k: int, target: Rtx, v: int): Option<Destination> {
    var jump := Xexp(Xvecexp(CountInsn(k, target), 0), 1);
    if Is3(jump, IF_THEN_ELSE) then Arm(if Meets(jump.fst, Holding([v])) then jump.snd else jump.thd) else None
  }

  lemma CountBuilt(k: int, target: Rtx)
    requires 240 <= k < 243
    ensures var m := CountMode(k); var c := Rtl.Reg(m, 0); var d := X2(PLUS, m, c, ConstInt(-1));
      CountInsn(k, target) == Parallel(VOID, [
        X2(SET, VOID, PC_RTX, X3(IF_THEN_ELSE, VOID,
          if k == 242 then X2(GE, VOID, d, ConstInt(0))
          else X2(NE, VOID, X2(COMPARE, VOID, d, ConstInt(-1)), ConstInt(0)),
          X1(LABEL_REF, VOID, target), PC_RTX)),
        X2(SET, VOID, c, d)])
  {
    hide Pattern;
    hide Build;
    var m := CountMode(k);
    var ops := [Rtl.Reg(m, 0), target];
    CountText(k);
    var p := Pattern(k);
    BuildStep(p, ops);
    BuildSet(p.a, ops);
    BuildStep(p.a.a, ops);
    BuildStep(p.a.b.c, ops);
    LabelBuilt(target, m);
    DecrementBuilt(p.b.b, target, m);
    BuildSet(p.b, ops);
    BuildOperand(p.b.a, target, m);
    ConditionBuilt(k, target);
  }

  function CountCondition(k: int): Pat {
    if k == 242 then P2(GE, VOID, Decremented(SI), Int(0)) else NotMinusOne(CountMode(k))
  }

  lemma CountText(k: int)
    requires 240 <= k < 243
    ensures Pattern(k) == DecrementBranch(CountMode(k), CountCondition(k))
  {}

  lemma BuildOperand(p: Pat, target: Rtx, m: Mode)
    requires p == Op(0, General, m) || p == Dup(0)
    ensures Build(p, [Rtl.Reg(m, 0), target]) == Rtl.Reg(m, 0)
  {}

  lemma LabelBuilt(target: Rtx, m: Mode)
    ensures Build(Label(1), [Rtl.Reg(m, 0), target]) == X1(LABEL_REF, VOID, target)
  {}

  lemma DecrementBuilt(p: Pat, target: Rtx, m: Mode)
    requires p == Decremented(m) || p == P2(PLUS, m, Dup(0), Int(-1))
    ensures Build(p, [Rtl.Reg(m, 0), target]) == X2(PLUS, m, Rtl.Reg(m, 0), ConstInt(-1))
  {}

  lemma ConditionBuilt(k: int, target: Rtx)
    requires 240 <= k < 243
    ensures var m := CountMode(k); var d := X2(PLUS, m, Rtl.Reg(m, 0), ConstInt(-1));
      Build(CountCondition(k), [Rtl.Reg(m, 0), target]) ==
        if k == 242 then X2(GE, VOID, d, ConstInt(0))
        else X2(NE, VOID, X2(COMPARE, VOID, d, ConstInt(-1)), ConstInt(0))
  {
    hide Build;
    var m := CountMode(k);
    var ops := [Rtl.Reg(m, 0), target];
    var p := CountCondition(k);
    DecrementBuilt(Decremented(m), target, m);
    BuildStep(p, ops);
    BuildStep(p.a, ops);
    BuildStep(p.b, ops);
    if k != 242 { BuildStep(p.a.b, ops); }
  }

  lemma CountSays(k: int, target: Rtx, v: int)
    requires 240 <= k < 243 && 0 <= v < A.Range(CountMode(k))
    ensures var r := A.Range(CountMode(k)); var w := (v - 1) % r;
      && NewCount(k, target, v) == w
      && CountGoes(k, target, v) == Some(if (if k == 242 then w < r / 2 else w != r - 1) then To(target) else Next)
  {
    hide CountInsn;
    CountBuilt(k, target);
    var m := CountMode(k);
    var d := X2(PLUS, m, Rtl.Reg(m, 0), ConstInt(-1));
    assert RtlValue.Value(Rtl.Reg(m, 0), Holding([v])) == v;
    assert RtlValue.Value(ConstInt(-1), Holding([v])) == WORD - 1;
    assert RtlValue.Value(d, Holding([v])) == Wrap(v + WORD - 1);
    LessOne(v, A.Range(m));
  }

  lemma LessOne(v: int, r: int)
    requires r in {0x1_0000, WORD} && 0 <= v < r
    ensures Wrap(v + WORD - 1) % r == (v - 1) % r && (WORD - 1) % r == r - 1
  {}

  // The word codes do what their patterns say: code 241 always, code 242 exactly for
  // the counters CountedLoop names.
  lemma WordCountCode(p: CountedLoop.Place, target: Rtx, s: CountedLoop.State)
    ensures var o := CountedLoop.Run(CountedLoop.WordCode(p), s);
      && o.counter == NewCount(241, target, s.counter) == NewCount(242, target, s.counter)
      && CountGoes(241, target, s.counter) == Some(if o.Branch? then To(target) else Next)
      && (CountGoes(242, target, s.counter) == Some(if o.Branch? then To(target) else Next)
          <==> CountedLoop.Nonnegative(s.counter) || s.counter == 0x8000_0000)
  {
    hide CountedLoop.Run;
    hide CountedLoop.WordCode;
    hide NewCount;
    hide CountGoes;
    CountSays(241, target, s.counter);
    CountSays(242, target, s.counter);
    CountedLoop.WordCodeDecrements(p, s);
    CountedLoop.NonnegativeForm(p, s);
  }

  // The halfword code on the low half of its counter.
  lemma HalfwordCountCode(p: CountedLoop.Place, target: Rtx, s: CountedLoop.State)
    ensures var o, h := CountedLoop.Run(CountedLoop.HalfwordCode(p), s), CountedLoop.LowHalf(s.counter);
      && CountedLoop.LowHalf(o.counter) == NewCount(240, target, h)
      && (CountGoes(240, target, h) == Some(if o.Branch? then To(target) else Next)
          <==> p != CountedLoop.AddressReg || h != 0 || s.counter == 0)
  {
    hide CountedLoop.Run;
    hide CountedLoop.HalfwordCode;
    hide NewCount;
    hide CountGoes;
    CountSays(240, target, CountedLoop.LowHalf(s.counter));
    CountedLoop.HalfwordCodeDecrements(p, s);
  }
}
