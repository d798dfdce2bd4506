// From an insn to what its instruction does on the i486: recognition, extraction and
// output together.  The operands are those of an insn after register allocation.

module I486Compiled {
  import opened Arithmetic
  import opened Common
  import opened Rtl
  import opened Patterns
  import opened I486Description
  import opened I486Select
  import I486Address
  import I486Recog
  import RtlValue

  // Registers and memory of the machine as RTL sees them, and the values of symbols.
  function Meaning32(s: State, other: (Rtx, seq<int>) -> int): RtlValue.Machine {
    RtlValue.Machine(n => if 0 <= n < 8 then s.reg[n] else 0, (mode, a) => Load(s.mem, a, mode), other)
  }

  // An operand is a hard register, a constant, or memory at a legitimate address.
  predicate Allocated(x: Rtx) {
    || (Is0(x, REG) && 0 <= x.val < 8)
    || ConstantP(x)
    || (x.Mem? && I486Address.Legitimate(x.addr, FINAL) && HardRegisters(I486Address.AddressParts(x.addr, FINAL))
        && I486Address.Encodable(I486Address.AddressParts(x.addr, FINAL), FINAL))
  }

  function MachineOperand(x: Rtx, m: RtlValue.Machine): Operand
    requires Allocated(x)
  {
    match x
    case X0(c, _, v) => if c == REG then R(v) else Imm(RtlValue.Value(x, m))
    case Mem(_, a, _) => ModeOperand(I486Address.AddressParts(a, FINAL), m)
    case _ => Imm(RtlValue.Value(x, m))
  }

  // The value of a source in mode m, from the values of its operands.
  function SourceValue(x: Rtx, m: Mode, s: State, other: (Rtx, seq<int>) -> int): int {
    match x
    case X2(c, _, a, b) => BinaryMeaning(c, m, SourceValue(a, m, s, other), SourceValue(b, m, s, other))
    case X1(c, _, a) =>
      if c == NEG || c == NOT then UnaryMeaning(c, m, SourceValue(a, m, s, other)) else OperandValue(x, m, s, other)
    case _ => OperandValue(x, m, s, other)
  }

  function OperandValue(x: Rtx, m: Mode, s: State, other: (Rtx, seq<int>) -> int): int {
    if Allocated(x) then Read(MachineOperand(x, Meaning32(s, other)), m, s) else 0
  }

  // --------------------------------------------------------------------------
  // The value is the one RTL gives the operand and the source, cut to the mode.

  predicate IntegerMode(m: Mode) { m in {QI, HI, SI} }

  // Memory is read in its own mode.
  predicate OperandIn(x: Rtx, m: Mode) { Allocated(x) && (x.Mem? ==> x.mode == m) }

  lemma OperandMeans(x: Rtx, m: Mode, s: State, other: (Rtx, seq<int>) -> int)
    requires OperandIn(x, m) && IntegerMode(m)
    ensures OperandValue(x, m, s, other) == RtlValue.Value(x, Meaning32(s, other)) % Range(m)
  {
    hide I486Address.AddressParts;
    hide I486Address.Legitimate;
    hide OperandValue;
    hide RtlValue.Value;
    hide Range;
    if x.Mem? {
      MemoryMeans(x, s, other);
      var v := OperandValue(x, m, s, other);
      DivUnique(v, Range(m), 0, v);
    } else {
      PlaceMeans(x, m, s, other);
    }
  }

  // A register or a constant.
  lemma PlaceMeans(x: Rtx, m: Mode, s: State, other: (Rtx, seq<int>) -> int)
    requires Allocated(x) && !x.Mem?
    ensures OperandValue(x, m, s, other) == RtlValue.Value(x, Meaning32(s, other)) % Range(m)
  {
    hide Range;
    if Is0(x, REG) {
      assert RtlValue.Value(x, Meaning32(s, other)) == s.reg[x.val];
    } else {
      hide RtlValue.Value;
    }
  }

  lemma MemoryMeans(x: Rtx, s: State, other: (Rtx, seq<int>) -> int)
    requires Allocated(x) && x.Mem? && IntegerMode(x.mode)
    ensures OperandValue(x, x.mode, s, other) == RtlValue.Value(x, Meaning32(s, other))
    ensures 0 <= OperandValue(x, x.mode, s, other) < Range(x.mode)
  {
    hide I486Address.AddressParts;
    hide I486Address.Legitimate;
    hide Load;
    var m := Meaning32(s, other);
    var p := I486Address.AddressParts(x.addr, FINAL);
    I486Address.LegitimateDecomposes(x.addr, FINAL, m);
    ModeAddress(p, s, m);
    LoadRange(s.mem, RtlValue.Value(x.addr, m), x.mode);
  }

  lemma LoadRange(mem: Word -> Byte, a: int, m: Mode)
    requires IntegerMode(m)
    ensures 0 <= Load(mem, a, m) < Range(m) && RtlValue.Wrap(Load(mem, a, m)) == Load(mem, a, m)
  {}

  // Sums, differences and products need no more than the low parts of their operands.
  lemma LowSum(a: int, b: int, m: Mode)
    requires IntegerMode(m)
    ensures var r := Range(m);
      && (a % r + b % r) % r == RtlValue.Wrap(a + b) % r
      && (a % r - b % r) % r == RtlValue.Wrap(a - b) % r
      && -(a % r) % r == RtlValue.Wrap(-a) % r
      && (-1 - a % r) % r == RtlValue.Wrap(-1 - a) % r
  {
    WideConstant(a + b, m);
    WideConstant(a - b, m);
    WideConstant(-a, m);
    WideConstant(-1 - a, m);
    hide Range;
    hide RtlValue.Wrap;
    RangeEven(m);
    var r := Range(m);
    var i, j, c, d := a / r, b / r, a % r, b % r;
    assert a == i * r + c && b == j * r + d;
    assert (i + j) * r == i * r + j * r && (i - j) * r == i * r - j * r && (-i) * r == -(i * r);
    SameRemainder(c + d, i + j, r);
    SameRemainder(c - d, i - j, r);
    SameRemainder(-c, -i, r);
    SameRemainder(-1 - c, -i, r);
  }

  lemma LowProduct(a: int, b: int, m: Mode)
    requires IntegerMode(m)
    ensures (a % Range(m)) * (b % Range(m)) % Range(m) == RtlValue.Wrap(a * b) % Range(m)
  {
    WideConstant(a * b, m);
    hide Range;
    hide RtlValue.Wrap;
    RangeEven(m);
    var r := Range(m);
    ProductParts(a % r, b % r, a / r, b / r, r);
    assert a == a / r * r + a % r && b == b / r * r + b % r;
  }

  lemma ProductParts(c: int, d: int, i: int, j: int, r: int)
    requires r > 0
    ensures c * d % r == (i * r + c) * (j * r + d) % r
  {
    var k := i * j * r + i * d + c * j;
    assert (i * r + c) * (j * r + d) == i * r * (j * r) + i * r * d + c * (j * r) + c * d;
    assert k * r == i * j * r * r + i * d * r + c * j * r;
    assert i * r * (j * r) == i * j * r * r && i * r * d == i * d * r && c * (j * r) == c * j * r;
    SameRemainder(c * d, k, r);
  }

  // An operation in mode m; sums, differences and products may be in a wider one.
  predicate InMode(c: Code2, n: Mode, m: Mode) { Integer(c) && (n == m || c in {PLUS, MINUS, MULT}) }

  // An operation on allocated operands.
  predicate PlainSource(x: Rtx, m: Mode) {
    if x.X2? then InMode(x.code2, x.mode, m) && OperandIn(x.left, m) && OperandIn(x.right, m)
    else (Is1(x, NEG) || Is1(x, NOT)) && OperandIn(x.arg, m)
  }

  lemma SourceMeans(x: Rtx, m: Mode, s: State, other: (Rtx, seq<int>) -> int)
    requires PlainSource(x, m) && IntegerMode(m)
    ensures SourceValue(x, m, s, other) == RtlValue.Value(x, Meaning32(s, other)) % Range(m)
  {
    hide OperandValue;
    hide OperandIn;
    hide Range;
    hide RtlValue.Wrap;
    var v := Meaning32(s, other);
    if x.X2? {
      OperandMeans(x.left, m, s, other);
      OperandMeans(x.right, m, s, other);
      PlainOperandValue(x.left, m, s, other);
      PlainOperandValue(x.right, m, s, other);
      BinaryMeans(x, RtlValue.Value(x.left, v), RtlValue.Value(x.right, v), m, v);
    } else {
      OperandMeans(x.arg, m, s, other);
      PlainOperandValue(x.arg, m, s, other);
      LowSum(RtlValue.Value(x.arg, v), 0, m);
    }
  }

  lemma BinaryMeans(x: Rtx, a: int, b: int, m: Mode, v: RtlValue.Machine)
    requires x.X2? && InMode(x.code2, x.mode, m) && IntegerMode(m)
    ensures BinaryMeaning(x.code2, m, a % Range(m), b % Range(m))
      == RtlValue.BinaryValue(x, x.code2, a, b, v) % Range(m)
  {
    hide Range;
    hide RtlValue.Wrap;
    hide BitByBit;
    hide ShiftMeaning;
    hide DivisionMeaning;
    RangeEven(m);
    LowSum(a, b, m);
    LowProduct(a, b, m);
    BinaryInRange(x.code2, m, a % Range(m), b % Range(m));
    var w := BinaryMeaning(x.code2, m, a % Range(m), b % Range(m));
    DivUnique(w, Range(m), 0, w);
    WideConstant(w, m);
  }

  lemma PlainOperandValue(x: Rtx, m: Mode, s: State, other: (Rtx, seq<int>) -> int)
    requires OperandIn(x, m)
    ensures SourceValue(x, m, s, other) == OperandValue(x, m, s, other)
  {}

  // --------------------------------------------------------------------------
  // The templates whose insns output one instruction

  predicate SourceForm(b: Pat, m: Mode) {
    match b
    case P1(c, _, a) => (c == NEG || c == NOT) && a == Op(1, General, m)
    case P2(c, _, a, Int(i)) => (c == PLUS || c == MINUS) && a == Op(1, General, m)
    case P2(c, n, a, d) => InMode(c, n, m) && a == Op(1, General, m) && d == Op(2, General, m)
    case _ => false
  }

  predicate Form(p: Pat) { p.P2? && p.c2 == SET && p.a == Op(0, General, ModeOf(p)) && SourceForm(p.b, ModeOf(p)) }

  lemma EarlyForm(k: int)
    requires OneInstruction(k) && k < 60
    ensures Form(Pattern(k)) && ModeOf(Pattern(k)) in {QI, HI, SI}
  {}

  lemma LogicForm(k: int)
    requires OneInstruction(k) && 60 <= k < 87
    ensures Form(Pattern(k)) && ModeOf(Pattern(k)) in {QI, HI, SI}
  {}

  lemma ShiftForm(k: int)
    requires 87 <= k < 105
    ensures Form(Pattern(k)) && ModeOf(Pattern(k)) in {QI, HI, SI}
  {}

  lemma LateForm(k: int)
    requires OneInstruction(k) && 60 <= k
    ensures Form(Pattern(k)) && ModeOf(Pattern(k)) in {QI, HI, SI}
  {
    hide Pattern;
    hide Form;
    if k < 87 { LogicForm(k); } else { ShiftForm(k); }
  }

  // The operands extraction writes for such a template.
  function Parts(p: Pat, x: Rtx): seq<Rtx> {
    if p.P2? && p.b.P2? && p.b.b.Op? then [Xexp(x, 0), Xexp(Xexp(x, 1), 0), Xexp(Xexp(x, 1), 1)]
    else [Xexp(x, 0), Xexp(Xexp(x, 1), 0)]
  }

  lemma EarlyParts(k: int, x: Rtx)
    requires OneInstruction(k) && k < 60
    ensures Extract(k, x) == Parts(Pattern(k), x)
  {}

  lemma LateParts(k: int, x: Rtx)
    requires OneInstruction(k) && 60 <= k
    ensures Extract(k, x) == Parts(Pattern(k), x)
  {}

  predicate AllAllocated(e: seq<Rtx>) { forall i | 0 <= i < |e| :: Allocated(e[i]) }

  function Located(e: seq<Rtx>, i: nat, m: RtlValue.Machine): Operand
    requires AllAllocated(e)
  {
    if i < |e| then MachineOperand(e[i], m) else Imm(0)
  }

  function LocatedAll(e: seq<Rtx>, m: RtlValue.Machine): Operands
    requires AllAllocated(e)
  {
    [Located(e, 0, m), Located(e, 1, m), Located(e, 2, m), Located(e, 3, m)]
  }

  // The constant of an increment is read cut to the mode.
  lemma ConstantAddend(c: Code2, m: Mode, a: int, i: int)
    requires c == PLUS || c == MINUS
    ensures BinaryMeaning(c, m, a, i % Range(m)) == BinaryMeaning(c, m, a, i)
  {
    hide Range;
    RangeEven(m);
    var r, q := Range(m), i / Range(m);
    var b := i % r;
    assert i == q * r + b;
    if c == PLUS {
      assert a + i == a + b + q * r;
      SameRemainder(a + b, q, r);
    } else {
      assert a - i == a - b + (-q) * r by { assert (-q) * r == -(q * r); }
      SameRemainder(a - b, -q, r);
    }
  }

  lemma WideConstant(i: int, m: Mode)
    requires IntegerMode(m)
    ensures RtlValue.Wrap(i) % Range(m) == i % Range(m)
  {
    var r, c := Range(m), WORD / Range(m);
    var q, w := i / WORD, i % WORD;
    assert WORD == c * r;
    assert i == w + (q * c) * r by { assert q * WORD == (q * c) * r; }
    SameRemainder(w, q * c, r);
  }

  // An operand is read as it stands.
  lemma OperandSource(x: Rtx, m: Mode, s: State, other: (Rtx, seq<int>) -> int)
    requires OperandForm(x) && Allocated(x)
    ensures SourceValue(x, m, s, other) == Read(MachineOperand(x, Meaning32(s, other)), m, s)
  {
    hide Read;
    hide MachineOperand;
  }

  // What the pattern says of the operands' values is what the insn's source says.
  lemma SourceOfPattern(p: Pat, x: Rtx, env: Env, s: State, other: (Rtx, seq<int>) -> int)
    requires Sane(env) && Form(p) && ModeOf(p) in {QI, HI, SI} && Shape(p, x, env) && AllAllocated(Parts(p, x))
    ensures Is2(x, SET) && (
      var m := ModeOf(p);
      var o := LocatedAll(Parts(p, x), Meaning32(s, other));
      Meaning(p.b, m, Values(o, m, s)) == SourceValue(x.right, m, s, other))
  {
    hide Read;
    hide MachineOperand;
    hide Allocated;
    hide BinaryMeaning;
    hide UnaryMeaning;
    var m, e := ModeOf(p), Parts(p, x);
    ShapeStep(p, x, env);
    ShapeStep(p.b, x.right, env);
    assert Allocated(e[1]);
    OperandSource(e[1], m, s, other);
    if p.b.P2? && p.b.b.Op? {
      assert Allocated(e[2]);
      OperandSource(e[2], m, s, other);
    } else if p.b.P2? {
      ConstantSource(x.right.right, m, s, other);
      var a := Read(MachineOperand(e[1], Meaning32(s, other)), m, s);
      ConstantAddend(p.b.c2, m, a, p.b.b.i);
    }
  }

  lemma ConstantSource(x: Rtx, m: Mode, s: State, other: (Rtx, seq<int>) -> int)
    requires Is0(x, CONST_INT) && m in {QI, HI, SI}
    ensures SourceValue(x, m, s, other) == x.val % Range(m)
  {
    WideConstant(x.val, m);
  }

  // The instruction chosen for the operands e writes the value of the source of x to
  // its destination and changes nothing else.
  ghost predicate Computed(k: int, x: Rtx, e: seq<Rtx>, s: State, other: (Rtx, seq<int>) -> int)
    requires AllAllocated(e)
  {
    && Is2(x, SET) && Allocated(x.left)
    && Run([Template(k, LocatedAll(e, Meaning32(s, other)))], s)
       == Some(Write(MachineOperand(x.left, Meaning32(s, other)), ModeOf(Pattern(k)),
                     SourceValue(x.right, ModeOf(Pattern(k)), s, other), s))
  }

  // The operands meet the constraints of their code.
  ghost predicate Fitting(k: int, e: seq<Rtx>, s: State, other: (Rtx, seq<int>) -> int) {
    AllAllocated(e) && Constrained(k, LocatedAll(e, Meaning32(s, other)))
  }

  // An insn that matches one of these codes is computed by the instruction chosen for
  // the operands extraction gives.
  lemma InsnComputed(k: int, x: Rtx, env: Env, s: State, other: (Rtx, seq<int>) -> int)
    requires Sane(env) && OneInstruction(k) && Matches(k, x, env) && Fitting(k, Extract(k, x), s, other)
    ensures Computed(k, x, Extract(k, x), s, other)
  {
    hide Pattern;
    hide Extract;
    hide Template;
    hide Constrained;
    hide Run;
    hide Write;
    hide SourceValue;
    hide MachineOperand;
    hide Allocated;
    if k < 60 { EarlyForm(k); EarlyParts(k, x); } else { LateForm(k); LateParts(k, x); }
    var o := LocatedAll(Extract(k, x), Meaning32(s, other));
    TemplateFaithful(k, o, s);
    SourceOfPattern(Pattern(k), x, env, s, other);
    assert Allocated(Extract(k, x)[0]);
  }

  // The source of such an insn is an operation on its operands.
  lemma MatchedSource(k: int, x: Rtx, env: Env)
    requires Sane(env) && OneInstruction(k) && Matches(k, x, env) && AllAllocated(Extract(k, x))
    ensures Is2(x, SET) && Allocated(x.left) && IntegerMode(ModeOf(Pattern(k)))
    ensures PlainSource(x.right, ModeOf(Pattern(k)))
  {
    hide Pattern;
    hide Extract;
    hide Allocated;
    if k < 60 { EarlyForm(k); EarlyParts(k, x); } else { LateForm(k); LateParts(k, x); }
    PlainOfShape(Pattern(k), x, env);
    assert Allocated(Extract(k, x)[0]);
  }

  lemma PlainOfShape(p: Pat, x: Rtx, env: Env)
    requires Sane(env) && Form(p) && IntegerMode(ModeOf(p)) && Shape(p, x, env) && AllAllocated(Parts(p, x))
    ensures Is2(x, SET) && PlainSource(x.right, ModeOf(p))
  {
    hide Allocated;
    ShapeStep(p, x, env);
    ShapeStep(p.b, x.right, env);
    var e := Parts(p, x);
    assert Allocated(e[1]);
    if p.b.P2? && p.b.b.Op? { assert Allocated(e[2]); }
    if p.b.P2? && !p.b.b.Op? { IntAllocated(x.right.right); }
  }

  lemma IntAllocated(x: Rtx)
    ensures Is0(x, CONST_INT) ==> Allocated(x)
  {}

  // What is written is the value RTL gives the source.
  ghost predicate ComputedRtl(k: int, x: Rtx, e: seq<Rtx>, s: State, other: (Rtx, seq<int>) -> int)
    requires AllAllocated(e)
  {
    && Is2(x, SET) && Allocated(x.left)
    && var m := Meaning32(s, other);
       Run([Template(k, LocatedAll(e, m))], s)
       == Some(Write(MachineOperand(x.left, m), ModeOf(Pattern(k)), RtlValue.Value(x.right, m), s))
  }

  lemma InsnMeansRtl(k: int, x: Rtx, env: Env, s: State, other: (Rtx, seq<int>) -> int)
    requires Sane(env) && OneInstruction(k) && Matches(k, x, env) && Fitting(k, Extract(k, x), s, other)
    ensures ComputedRtl(k, x, Extract(k, x), s, other)
  {
    hide Matches;
    hide Extract;
    hide PlainSource;
    hide SourceValue;
    hide Pattern;
    hide MachineOperand;
    hide Constrained;
    hide Template;
    hide Write;
    hide Run;
    hide Range;
    InsnComputed(k, x, env, s, other);
    MatchedSource(k, x, env);
    var m := Meaning32(s, other);
    var mode := ModeOf(Pattern(k));
    SourceMeans(x.right, mode, s, other);
    WriteModulo(MachineOperand(x.left, m), mode, RtlValue.Value(x.right, m), s);
  }

  // The recogniser run on an insn: for the operands it has recorded, the instruction
  // output computes the insn in every machine state.
  method Compile(recog: I486Recog.Recog, x: Rtx) returns (r: int)
    requires recog.Ready() && Sane(recog.env)
    modifies recog.operand
    ensures I486Recog.Answer(r, x, recog.env)
    ensures OneInstruction(r) ==> |Extract(r, x)| <= recog.operand.Length
    ensures OneInstruction(r) ==> forall s: State, other: (Rtx, seq<int>) -> int ::
        var e := recog.operand[..|Extract(r, x)|];
        Fitting(r, e, s, other) ==> ComputedRtl(r, x, e, s, other)
  {
    hide Extract;
    hide Matches;
    hide Fitting;
    hide ComputedRtl;
    r := recog.Recognise(x);
    if OneInstruction(r) {
      RecognisedMatches(recog, r, x);
      forall s: State, other: (Rtx, seq<int>) -> int | Fitting(r, Extract(r, x), s, other)
        ensures AllAllocated(Extract(r, x)) && ComputedRtl(r, x, Extract(r, x), s, other)
      {
        FittingAllocated(r, Extract(r, x), s, other);
        InsnMeansRtl(r, x, recog.env, s, other);
      }
    }
  }

  lemma FittingAllocated(k: int, e: seq<Rtx>, s: State, other: (Rtx, seq<int>) -> int)
    requires Fitting(k, e, s, other)
    ensures AllAllocated(e)
  {}

  lemma RecognisedMatches(recog: I486Recog.Recog, r: int, x: Rtx)
    requires recog.Ready() && Sane(recog.env) && OneInstruction(r)
    requires I486Recog.Answer(r, x, recog.env) && I486Recog.Holds(recog.operand, r, x)
    ensures |Extract(r, x)| <= recog.operand.Length && recog.operand[..|Extract(r, x)|] == Extract(r, x)
    ensures Matches(r, x, recog.env)
  {
    hide Extract;
    hide Matches;
  }
}
