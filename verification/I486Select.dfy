// Integer instruction selection on the i486 (cmd/gcc/i486.gen/insn-output.c): the
// template or output function of an insn code, executed under the code's operand
// constraints, leaves in operand 0 what the code's pattern says.

module I486Select {
  import opened Arithmetic
  import opened Common
  import opened Rtl
  import opened Patterns
  import I486Description
  import I486Address
  import RtlValue

  // --------------------------------------------------------------------------
  // The machine

  const WORD := 0x1_0000_0000

  // Register numbers of the back end, in the order of REGISTER_NAMES.
  const AX := 0
  const DX := 1
  const CX := 2

  type Word = x: int | 0 <= x < 0x1_0000_0000

  type Byte = x: int | 0 <= x < 0x100

  type RegNo = n: int | 0 <= n < 8

  type Registers = r: seq<Word> | |r| == 8 witness seq(8, _ => 0)

  datatype State = State(reg: Registers, mem: Word -> Byte)

  // M is base + index * scale + displacement.
  datatype Operand = R(n: RegNo) | Imm(v: int) | M(base: Option<RegNo>, index: Option<RegNo>, scale: int, disp: int)

  function Wrap(v: int): Word { v % WORD }

  function Address(x: Operand, s: State): Word
    requires x.M?
  {
    Wrap((if x.base.Some? then s.reg[x.base.value] else 0)
         + (if x.index.Some? then s.reg[x.index.value] * x.scale else 0) + x.disp)
  }

  function Load(mem: Word -> Byte, a: int, m: Mode): int {
    if m == QI then mem(Wrap(a))
    else if m == HI then mem(Wrap(a)) + 0x100 * mem(Wrap(a + 1))
    else mem(Wrap(a)) + 0x100 * mem(Wrap(a + 1)) + 0x1_0000 * mem(Wrap(a + 2)) + 0x100_0000 * mem(Wrap(a + 3))
  }

  // Byte o of a little-endian value.
  function ByteOf(v: int, o: int): Byte {
    if o == 0 then v % 0x100
    else if o == 1 then v / 0x100 % 0x100
    else if o == 2 then v / 0x1_0000 % 0x100
    else v / 0x100_0000 % 0x100
  }

  function Store(mem: Word -> Byte, a: int, m: Mode, v: int): Word -> Byte {
    (x: Word) => var o := Wrap(x - a); if o < Bits(m) / 8 then ByteOf(v, o) else mem(x)
  }

  function Read(x: Operand, m: Mode, s: State): int {
    match x
    case R(n) => s.reg[n] % Range(m)
    case Imm(v) => v % Range(m)
    case M(_, _, _, _) => Load(s.mem, Address(x, s), m)
  }

  // The low part of a register is replaced and the rest kept.
  function Merge(before: Word, m: Mode, v: int): Word {
    if m == QI then before - before % 0x100 + v % 0x100
    else if m == HI then before - before % 0x1_0000 + v % 0x1_0000
    else v % WORD
  }

  lemma MergeMeans(before: Word, m: Mode, v: int)
    ensures Merge(before, m, v) % Range(m) == v % Range(m) && Merge(before, m, v) / Range(m) == before / Range(m)
  {
    DivUnique(Merge(before, m, v), Range(m), before / Range(m), v % Range(m));
  }

  function Write(x: Operand, m: Mode, v: int, s: State): State {
    match x
    case R(n) => State(s.reg[n := Merge(s.reg[n], m, v % Range(m))], s.mem)
    case Imm(_) => s
    case M(_, _, _, _) => State(s.reg, Store(s.mem, Address(x, s), m, v % Range(m)))
  }

  lemma StoreAt(mem: Word -> Byte, a: int, m: Mode, v: int, o: int)
    requires 0 <= o < Bits(m) / 8
    ensures Store(mem, a, m, v)(Wrap(a + o)) == ByteOf(v, o)
  {
    assert Wrap(Wrap(a + o) - a) == o;
  }

  lemma BytesMakeWord(v: int)
    requires 0 <= v < WORD
    ensures v < 0x1_0000 ==> ByteOf(v, 0) + 0x100 * ByteOf(v, 1) == v
    ensures ByteOf(v, 0) + 0x100 * ByteOf(v, 1) + 0x1_0000 * ByteOf(v, 2) + 0x100_0000 * ByteOf(v, 3) == v
  {
    var a := v / 0x100;
    var b := a / 0x100;
    assert b == v / 0x1_0000 && b / 0x100 == v / 0x100_0000;
    assert v == v % 0x100 + 0x100 * a && a == a % 0x100 + 0x100 * b && b == b % 0x100 + 0x100 * (b / 0x100);
  }

  // What is written to a register or to memory is read back, cut to the mode; no
  // other register, and no byte outside the operand, changes.
  lemma ReadBack(x: Operand, m: Mode, v: int, s: State)
    requires !x.Imm?
    ensures Read(x, m, Write(x, m, v, s)) == v % Range(m)
  {
    hide Store;
    hide Load;
    hide Merge;
    hide Range;
    ModTwice(v, m);
    match x
    case M(_, _, _, _) => LoadStored(s.mem, Address(x, s), m, v % Range(m));
    case R(n) => MergeMeans(s.reg[n], m, v % Range(m));
  }

  lemma ModTwice(v: int, m: Mode)
    ensures 0 <= v % Range(m) < Range(m) && v % Range(m) % Range(m) == v % Range(m)
  {
    DivUnique(v % Range(m), Range(m), 0, v % Range(m));
  }

  lemma WriteKeeps(x: Operand, m: Mode, v: int, s: State, n: RegNo, b: Word)
    ensures x != R(n) ==> Write(x, m, v, s).reg[n] == s.reg[n]
    ensures (x.M? ==> Wrap(b - Address(x, s)) >= Bits(m) / 8) ==> Write(x, m, v, s).mem(b) == s.mem(b)
  {}

  lemma LoadStored(mem: Word -> Byte, a: Word, m: Mode, v: int)
    requires 0 <= v < Range(m)
    ensures Load(Store(mem, a, m, v), a, m) == v
  {
    hide Store;
    StoreAt(mem, a, m, v, 0);
    if m != QI { StoreAt(mem, a, m, v, 1); }
    if m != QI && m != HI {
      StoreAt(mem, a, m, v, 2);
      StoreAt(mem, a, m, v, 3);
    }
    BytesMakeWord(v);
  }

  // --------------------------------------------------------------------------
  // Instructions.  The source comes first, as the assembler writes it.

  datatype Instruction =
    | Two(op: Code2, m: Mode, src: Operand, dst: Operand)
    | Increment(m: Mode, dst: Operand)
    | Decrement(m: Mode, dst: Operand)
    | Negate(m: Mode, dst: Operand)
    | Invert(m: Mode, dst: Operand)
    | Shift(op: Code2, m: Mode, count: Operand, dst: Operand)
    | MultiplyInto(m: Mode, src: Operand, dst: Operand)
    | MultiplyBy(m: Mode, src: Operand, factor: Operand, dst: Operand)
    | MultiplyAx(m: Mode, src: Operand)
    | LoadAddress(src: Operand, dst: Operand)
    | ExtendAx
    | Clear(dst: Operand)
    | DivideSigned(src: Operand)
    | DivideUnsigned(src: Operand)

  function Complement(n: nat, a: int): int {
    if n == 0 then 0 else 2 * Complement(n - 1, a / 2) + 1 - a % 2
  }

  // A shift or rotation by one place.
  function Once(op: Code2, m: Mode, a: int): int {
    var r := Range(m);
    match op
    case LSHIFTRT => a / 2
    case ASHIFTRT => if a < r / 2 then a / 2 else a / 2 + r / 2
    case ROTATE => 2 * a % r + 2 * a / r
    case ROTATERT => a / 2 + a % 2 * (r / 2)
    case _ => 2 * a % r
  }

  function Repeat(op: Code2, m: Mode, a: int, n: nat): int {
    if n == 0 then a else Once(op, m, Repeat(op, m, a, n - 1))
  }

  // dx:ax as a signed and as an unsigned double word.
  function SignedPair(s: State): int { Signed(SI, s.reg[DX]) * WORD + s.reg[AX] }

  function UnsignedPair(s: State): int { s.reg[DX] * WORD + s.reg[AX] }

  // The state after a division, or None for the divide error.
  function Divided(q: int, r: int, low: int, high: int, s: State): Option<State> {
    if low <= q < high then Some(Write(R(DX), SI, r, Write(R(AX), SI, q, s))) else None
  }

  function Step(i: Instruction, s: State): Option<State> {
    match i
    case Two(op, m, x, d) => Some(Write(d, m, Combine(op, m, Read(d, m, s), Read(x, m, s)), s))
    case Increment(m, d) => Some(Write(d, m, Read(d, m, s) + 1, s))
    case Decrement(m, d) => Some(Write(d, m, Read(d, m, s) - 1, s))
    case Negate(m, d) => Some(Write(d, m, -Read(d, m, s), s))
    case Invert(m, d) => Some(Write(d, m, Complement(Bits(m), Read(d, m, s)), s))
    case Shift(op, m, c, d) => Some(Write(d, m, Repeat(op, m, Read(d, m, s), Read(c, QI, s) % 32), s))
    case MultiplyInto(m, x, d) => Some(Write(d, m, Signed(m, Read(d, m, s)) * Signed(m, Read(x, m, s)), s))
    case MultiplyBy(m, x, y, d) => Some(Write(d, m, Signed(m, Read(y, m, s)) * Signed(m, Read(x, m, s)), s))
    case MultiplyAx(m, x) =>
      var p := Read(R(AX), m, s) * Read(x, m, s);
      Some(Write(R(DX), m, p / Range(m), Write(R(AX), m, p, s)))
    case LoadAddress(x, d) => Some(if x.M? then Write(d, SI, Address(x, s), s) else s)
    case ExtendAx => Some(Write(R(DX), SI, if s.reg[AX] < WORD / 2 then 0 else WORD - 1, s))
    case Clear(d) => Some(Write(d, SI, 0, s))
    case DivideSigned(x) =>
      var b := Signed(SI, Read(x, SI, s));
      if b == 0 then None
      else Divided(Quotient(SignedPair(s), b), Remainder(SignedPair(s), b), -WORD / 2, WORD / 2, s)
    case DivideUnsigned(x) =>
      var b := Read(x, SI, s);
      if b == 0 then None else Divided(UnsignedPair(s) / b, UnsignedPair(s) % b, 0, WORD, s)
  }

  function Run(p: seq<Instruction>, s: State): Option<State> {
    if p == [] then Some(s)
    else match Step(p[0], s) case None => None case Some(t) => Run(p[1..], t)
  }

  lemma RunShort(i: Instruction, j: Instruction, s: State)
    ensures Run([i], s) == Step(i, s)
    ensures Run([i, j], s) == match Step(i, s) case None => None case Some(t) => Step(j, t)
  {
    hide Step;
    assert [i][1..] == [] && [i, j][1..] == [j] && [j][1..] == [];
    if Step(i, s).Some? {
      var t := Step(i, s).value;
      assert Run([j], t) == Step(j, t);
    }
  }

  // What the processor can encode: no two memory operands, byte registers among the
  // first four, shift counts in cl or immediate, no immediate destination, the long
  // multiplication only by a constant.
  predicate Addressable(x: Operand, m: Mode) { x.R? && m == QI ==> x.n < 4 }

  predicate Destination(x: Operand, m: Mode) { !x.Imm? && Addressable(x, m) }

  predicate Encodable(i: Instruction) {
    match i
    case Two(_, m, x, d) => Destination(d, m) && Addressable(x, m) && !(x.M? && d.M?)
    case Increment(m, d) => Destination(d, m)
    case Decrement(m, d) => Destination(d, m)
    case Negate(m, d) => Destination(d, m)
    case Invert(m, d) => Destination(d, m)
    case Shift(_, m, c, d) => Destination(d, m) && (c == R(CX) || (c.Imm? && 0 <= c.v < 32))
    case MultiplyInto(_, x, d) => d.R? && (x.R? || x.M?)
    case MultiplyBy(_, x, y, d) => d.R? && x.Imm? && !y.Imm?
    case MultiplyAx(_, x) => !x.Imm?
    case LoadAddress(x, d) => x.M? && d.R? && x.scale in {1, 2, 4, 8} && x.index != Some(7)
    case ExtendAx => true
    case Clear(d) => !d.Imm?
    case DivideSigned(x) => !x.Imm?
    case DivideUnsigned(x) => !x.Imm?
  }

  // --------------------------------------------------------------------------
  // What each code outputs

  // The operands of an insn; unused ones are ignored.
  type Operands = o: seq<Operand> | |o| == 4 witness seq(4, _ => Imm(0))

  function AddSubTemplate(k: int, o: Operands): Instruction {
    match k
    case 25 => Increment(SI, o[0])
    case 26 => Decrement(SI, o[0])
    case 27 => Decrement(SI, o[0])
    case 42 => Two(PLUS, SI, o[2], o[0])
    case 43 => Increment(HI, o[0])
    case 44 => Two(PLUS, HI, o[2], o[0])
    case 45 => Increment(QI, o[0])
    case 46 => Two(PLUS, QI, o[2], o[0])
    case 49 => Two(MINUS, SI, o[2], o[0])
    case 50 => Decrement(HI, o[0])
    case 51 => Two(MINUS, HI, o[2], o[0])
    case 52 => Decrement(QI, o[0])
    case _ => Two(MINUS, QI, o[2], o[0])
  }

  function LogicTemplate(k: int, o: Operands): Instruction {
    match k
    case 68 => Two(AND, SI, o[2], o[0])
    case 69 => Two(AND, HI, o[2], o[0])
    case 70 => Two(AND, QI, o[2], o[0])
    case 71 => Two(IOR, SI, o[2], o[0])
    case 72 => Two(IOR, HI, o[2], o[0])
    case 73 => Two(IOR, QI, o[2], o[0])
    case 74 => Two(XOR, SI, o[2], o[0])
    case 75 => Two(XOR, HI, o[2], o[0])
    case 76 => Two(XOR, QI, o[2], o[0])
    case 77 => Negate(SI, o[0])
    case 78 => Negate(HI, o[0])
    case 79 => Negate(QI, o[0])
    case 84 => Invert(SI, o[0])
    case 85 => Invert(HI, o[0])
    case _ => Invert(QI, o[0])
  }

  function ShiftMode(k: int): Mode { if k % 3 == 0 then SI else if k % 3 == 1 then HI else QI }

  function ShiftCode(k: int): Code2 {
    if k < 90 then ASHIFT else if k < 93 then ASHIFTRT else if k < 96 then LSHIFT
    else if k < 99 then LSHIFTRT else if k < 102 then ROTATE else ROTATERT
  }

  // output_87 to output_104.  A shift to the left by one is an addition, in SImode
  // only; LSHIFT is the logical shift, to the left the same instruction.
  function ShiftTemplate(k: int, o: Operands): Instruction {
    var code := ShiftCode(k);
    if o[2].R? then Shift(code, ShiftMode(k), R(CX), o[0])
    else if k == 87 && o[1].R? && o[2] == Imm(1) then Two(PLUS, SI, o[1], o[1])
    else Shift(code, ShiftMode(k), o[2], if k == 90 || k == 91 then o[0] else o[1])
  }

  // output_56 and output_57
  function MultiplyTemplate(k: int, o: Operands): Instruction {
    var m := if k == 56 then HI else SI;
    if o[1].R? && o[1] == o[0] && (o[2].M? || o[2].R?) then MultiplyInto(m, o[2], o[0])
    else MultiplyBy(m, o[2], o[1], o[0])
  }

  predicate OneInstruction(k: int) {
    25 <= k < 28 || 42 <= k < 47 || 49 <= k < 54 || k == 56 || k == 57 || 68 <= k < 80 || 84 <= k < 105
  }

  function Template(k: int, o: Operands): Instruction {
    if k < 54 then AddSubTemplate(k, o)
    else if k < 58 then MultiplyTemplate(k, o)
    else if k < 87 then LogicTemplate(k, o)
    else ShiftTemplate(k, o)
  }

  // --------------------------------------------------------------------------
  // The operand constraints, once operands that must match do.

  predicate Q(x: Operand) { x.R? && x.n < 4 }

  predicate RM(x: Operand) { x.R? || x.M? }

  predicate RI(x: Operand) { x.R? || x.Imm? }

  predicate QM(x: Operand) { Q(x) || x.M? }

  // "=rm,r" "0,0" "ri,rm" and "=m,q" "0,0" "qn,qmn"
  predicate WordPair(o: Operands) { o[1] == o[0] && ((RM(o[0]) && RI(o[2])) || (o[0].R? && RM(o[2]))) }

  predicate BytePair(o: Operands) {
    o[1] == o[0] && ((o[0].M? && (Q(o[2]) || o[2].Imm?)) || (Q(o[0]) && (QM(o[2]) || o[2].Imm?)))
  }

  // "=g" or "=rm" or "=qm" and "0"
  predicate Single(m: Mode, o: Operands) { o[1] == o[0] && (if m == QI then QM(o[0]) else RM(o[0])) }

  predicate CountI(x: Operand) { x == R(CX) || (x.Imm? && 0 <= x.v < 32) }

  predicate Constrained(k: int, o: Operands) {
    if 25 <= k < 28 then Single(SI, o)
    else if k == 43 || k == 50 then Single(HI, o)
    else if k == 45 || k == 52 then Single(QI, o)
    else if k == 46 || k == 53 then BytePair(o)
    else if k < 54 then WordPair(o)
    else if k < 58 then o[0].R? && (o[1] == o[0] || (RM(o[1]) && o[2].Imm?))
    else if k == 70 || k == 73 then BytePair(o)
    else if k == 76 then o[1] == o[0] && QM(o[0]) && (Q(o[2]) || o[2].Imm?)
    else if k < 77 then WordPair(o)
    else if k < 87 then Single(if k == 79 || k == 86 then QI else SI, o)
    else Single(ShiftMode(k), o) && CountI(o[2])
  }

  // --------------------------------------------------------------------------
  // What a pattern says, on the values of the operands

  // The source p of a SET in mode m, on operand values v.
  function Meaning(p: Pat, m: Mode, v: seq<int>): int {
    match p
    case Op(n, _, _) => if n < |v| then v[n] else 0
    case Dup(n) => if n < |v| then v[n] else 0
    case Int(i) => i
    case P1(c, _, a) => UnaryMeaning(c, m, Meaning(a, m, v))
    case P2(c, _, a, b) => BinaryMeaning(c, m, Meaning(a, m, v), Meaning(b, m, v))
    case _ => 0
  }

  function ModeOf(p: Pat): Mode { if p.P2? && p.a.Op? then p.a.m else VOID }

  function SourceOf(p: Pat): Pat { if p.P2? then p.b else p }

  function Values(o: Operands, m: Mode, s: State): seq<int> { [Read(o[0], m, s), Read(o[1], m, s), Read(o[2], m, s)] }

  // What executing (set op0 source) of pattern p does.
  function Executed(p: Pat, o: Operands, s: State): State {
    Write(o[0], ModeOf(p), Meaning(SourceOf(p), ModeOf(p), Values(o, ModeOf(p), s)), s)
  }

  // --------------------------------------------------------------------------
  // Arithmetic

  lemma DivTwice(a: int, p: int)
    requires p > 0
    ensures a / p / 2 == a / (2 * p) && a % (2 * p) == a / p % 2 * p + a % p
  {
    var q, r := a / p, a % p;
    assert a == q / 2 * (2 * p) + (q % 2 * p + r) by { assert q == q / 2 * 2 + q % 2; }
    DivUnique(a, 2 * p, q / 2, q % 2 * p + r);
  }

  lemma DoubleMod(a: int, p: int, r: int)
    requires r > 0
    ensures 2 * (a * p % r) % r == a * (2 * p) % r
  {
    var x := a * p;
    var q := x / r;
    assert 2 * x == (2 * q + 2 * (x % r) / r) * r + 2 * (x % r) % r;
    DivUnique(2 * x, r, 2 * q + 2 * (x % r) / r, 2 * (x % r) % r);
    assert a * (2 * p) == 2 * x;
  }

  lemma {:induction false} LeftRepeats(op: Code2, m: Mode, a: int, n: nat)
    requires (op == ASHIFT || op == LSHIFT) && 0 <= a < Range(m)
    ensures Repeat(op, m, a, n) == a * Pow2(n) % Range(m)
  {
    if n > 0 {
      LeftRepeats(op, m, a, n - 1);
      DoubleMod(a, Pow2(n - 1), Range(m));
    }
  }

  lemma {:induction false} LogicalRepeats(m: Mode, a: int, n: nat)
    requires 0 <= a < Range(m)
    ensures Pow2(n) > 0 && Repeat(LSHIFTRT, m, a, n) == a / Pow2(n)
    ensures 0 <= a / Pow2(n) < Range(m)
  {
    if n > 0 {
      LogicalRepeats(m, a, n - 1);
      DivTwice(a, Pow2(n - 1));
    }
  }

  lemma HalfSigned(m: Mode, v: int)
    requires 0 <= v < Range(m)
    ensures 0 <= Once(ASHIFTRT, m, v) < Range(m) && Signed(m, Once(ASHIFTRT, m, v)) == Signed(m, v) / 2
  {
    hide Range;
    var h := Range(m) / 2;
    assert Range(m) == 2 * h by { RangeEven(m); }
  }

  lemma SignedModulo(m: Mode, v: int)
    requires 0 <= v < Range(m)
    ensures Signed(m, v) % Range(m) == v
  {}

  lemma {:induction false} ArithmeticRepeats(m: Mode, a: int, n: nat)
    requires 0 <= a < Range(m)
    ensures Pow2(n) > 0 && 0 <= Repeat(ASHIFTRT, m, a, n) < Range(m)
    ensures Signed(m, Repeat(ASHIFTRT, m, a, n)) == Signed(m, a) / Pow2(n)
    ensures Repeat(ASHIFTRT, m, a, n) == Signed(m, a) / Pow2(n) % Range(m)
  {
    hide Signed;
    hide Once;
    hide Range;
    SignedModulo(m, a);
    if n > 0 {
      ArithmeticRepeats(m, a, n - 1);
      DivTwice(Signed(m, a), Pow2(n - 1));
      var v := Repeat(ASHIFTRT, m, a, n - 1);
      HalfSigned(m, v);
      SignedModulo(m, Once(ASHIFTRT, m, v));
    }
  }

  lemma {:induction false} RepeatSplits(op: Code2, m: Mode, a: int, i: nat, j: nat)
    ensures Repeat(op, m, a, i + j) == Repeat(op, m, Repeat(op, m, a, i), j)
  {
    if j > 0 { RepeatSplits(op, m, a, i, j - 1); }
  }

  // Cut at a bit boundary, a value is a high part of n bits, one bit and a low part.
  lemma Cut(m: Mode, a: int, n: nat)
    requires 0 <= a < Range(m) && n < Bits(m)
    ensures var k, p := Pow2(Bits(m) - n - 1), Pow2(n);
      && k > 0 && p > 0 && Range(m) == 2 * (k * p) && Pow2(Bits(m) - n) == 2 * k && Pow2(n + 1) == 2 * p
      && 0 <= a / k < 2 * p && a / (2 * k) == a / k / 2 && a % (2 * k) == a / k % 2 * k + a % k
  {
    hide Range;
    hide Bits;
    var k, p := Pow2(Bits(m) - n - 1), Pow2(n);
    CutPowers(m, n);
    QuotientBelow(a, k, 2 * p);
    DivTwice(a, k);
  }

  lemma CutPowers(m: Mode, n: nat)
    requires n < Bits(m)
    ensures var k, p := Pow2(Bits(m) - n - 1), Pow2(n);
      k > 0 && p > 0 && Pow2(Bits(m) - n) == 2 * k && Pow2(n + 1) == 2 * p && Range(m) == 2 * (k * p) == 2 * p * k
  {
    hide Range;
    hide Bits;
    Pow2Splits(Bits(m) - n - 1, n + 1);
    RangeIsPower(m);
    var k, p := Pow2(Bits(m) - n - 1), Pow2(n);
    assert k * (2 * p) == 2 * (k * p) == 2 * p * k;
  }

  // Rotating by one more place, and back.
  lemma RotateOnce(m: Mode, a: int, n: nat)
    requires 0 <= a < Range(m) && n < Bits(m)
    ensures 0 <= RotateLeft(m, a, n) < Range(m)
    ensures Once(ROTATE, m, RotateLeft(m, a, n)) == RotateLeft(m, a, n + 1)
    ensures Once(ROTATERT, m, RotateLeft(m, a, n + 1)) == RotateLeft(m, a, n)
  {
    hide Once;
    hide Range;
    hide Pow2;
    Cut(m, a, n);
    var k, p := Pow2(Bits(m) - n - 1), Pow2(n);
    var h, l := a / k, a % k;
    LowPart(l, p, h / 2, k);
    RotatedParts(h, l, k, p);
    RotateStep(m, l * p + h / 2, h % 2, k * p);
    assert RotateLeft(m, a, n + 1) == l * (2 * p) + h;
    assert RotateLeft(m, a, n) == (h % 2 * k + l) * p + h / 2;
  }

  lemma RotatedParts(h: int, l: int, k: int, p: int)
    ensures (h % 2 * k + l) * p + h / 2 == h % 2 * (k * p) + (l * p + h / 2)
    ensures l * (2 * p) + h == 2 * (l * p + h / 2) + h % 2
  {
    var t := h % 2;
    assert (t * k + l) * p == t * (k * p) + l * p;
    assert l * (2 * p) == 2 * (l * p);
  }

  lemma LowPart(l: int, p: int, h: int, k: int)
    requires 0 <= l < k && 0 <= h < p
    ensures 0 <= l * p + h < k * p
  {
    if l > 0 { Multiple(l, p); }
    Multiple(k - l, p);
    assert (k - l) * p == k * p - l * p;
  }

  lemma RotateStep(m: Mode, low: int, t: int, half: int)
    requires 0 <= low < half && Range(m) == 2 * half && (t == 0 || t == 1)
    ensures 0 <= t * half + low < Range(m)
    ensures Once(ROTATE, m, t * half + low) == 2 * low + t
    ensures Once(ROTATERT, m, 2 * low + t) == t * half + low
  {
    hide Range;
    assert t * half == if t == 0 then 0 else half;
    DivUnique(2 * (t * half + low), Range(m), t, 2 * low);
  }

  lemma RotateEnds(m: Mode, a: int)
    requires 0 <= a < Range(m)
    ensures RotateLeft(m, a, 0) == a && RotateLeft(m, a, Bits(m)) == a
  {
    hide Range;
    RangeIsPower(m);
    DivUnique(a, Range(m), 0, a);
    assert Pow2(0) == 1;
  }

  lemma {:induction false} RotateRepeats(m: Mode, a: int, n: nat)
    requires 0 <= a < Range(m) && n <= Bits(m)
    ensures Repeat(ROTATE, m, a, n) == RotateLeft(m, a, n)
    ensures Repeat(ROTATERT, m, a, n) == RotateLeft(m, a, Bits(m) - n)
  {
    hide RotateLeft;
    hide Once;
    hide Range;
    hide Bits;
    if n == 0 {
      RotateEnds(m, a);
    } else {
      RotateRepeats(m, a, n - 1);
      RotateOnce(m, a, n - 1);
      RotateOnce(m, a, Bits(m) - n);
    }
  }

  // A full turn changes nothing, so counts beyond the width rotate by the rest.
  lemma RotateTurn(op: Code2, m: Mode, a: int, n: nat)
    requires (op == ROTATE || op == ROTATERT) && 0 <= a < Range(m)
    ensures Repeat(op, m, a, Bits(m) + n) == Repeat(op, m, a, n)
  {
    hide RotateLeft;
    hide Repeat;
    hide Range;
    hide Bits;
    RotateRepeats(m, a, Bits(m));
    RotateEnds(m, a);
    RepeatSplits(op, m, a, Bits(m), n);
  }

  lemma {:induction false} RotateWraps(op: Code2, m: Mode, a: int, n: nat)
    requires (op == ROTATE || op == ROTATERT) && 0 <= a < Range(m)
    ensures Repeat(op, m, a, n) == Repeat(op, m, a, n % Bits(m))
  {
    hide Repeat;
    if n >= Bits(m) {
      RotateWraps(op, m, a, n - Bits(m));
      RotateTurn(op, m, a, n - Bits(m));
      LessTurn(m, n);
    }
  }

  lemma LessTurn(m: Mode, n: nat)
    requires n >= Bits(m)
    ensures (n - Bits(m)) % Bits(m) == n % Bits(m)
  {}

  // Shifting one place at a time is the shift the pattern asks for.
  lemma ShiftRepeats(op: Code2, m: Mode, a: int, b: int)
    requires op in {ASHIFT, LSHIFT, ASHIFTRT, LSHIFTRT, ROTATE, ROTATERT} && 0 <= a < Range(m)
    ensures Repeat(op, m, a, b % 32) == ShiftMeaning(op, m, a, b)
  {
    hide Range;
    hide Repeat;
    hide Signed;
    hide RotateLeft;
    hide Pow2;
    var n := b % 32;
    if op == ASHIFTRT {
      ArithmeticRepeats(m, a, n);
    } else if op == LSHIFTRT {
      LogicalRepeats(m, a, n);
    } else if op == ROTATE || op == ROTATERT {
      RotateWraps(op, m, a, n);
      RotateRepeats(m, a, n % Bits(m));
    } else {
      LeftRepeats(op, m, a, n);
    }
  }

  lemma ShiftedProduct(a: int, b: int, r: int, i: int, j: int)
    ensures (a - i * r) * (b - j * r) == a * b + (i * j * r - i * b - j * a) * r
  {
    var c, d := i * r, j * r;
    assert (a - c) * (b - d) == a * b - a * d - c * b + c * d;
    assert (i * j * r - i * b - j * a) * r == i * j * r * r - i * b * r - j * a * r;
    assert c * d == i * j * r * r && a * d == j * a * r && c * b == i * b * r;
  }

  // The low half of a product does not depend on the signs.
  lemma SignedProduct(m: Mode, a: int, b: int)
    ensures Signed(m, a) * Signed(m, b) % Range(m) == a * b % Range(m)
  {
    hide Range;
    RangeEven(m);
    var r := Range(m);
    var i, j := if a < r / 2 then 0 else 1, if b < r / 2 then 0 else 1;
    ShiftedProduct(a, b, r, i, j);
    assert Signed(m, a) == a - i * r && Signed(m, b) == b - j * r;
    SameRemainder(a * b, i * j * r - i * b - j * a, r);
  }

  lemma {:induction false} ComplementMeans(n: nat, a: int)
    requires 0 <= a < Pow2(n)
    ensures Complement(n, a) == Pow2(n) - 1 - a
  {
    if n > 0 { ComplementMeans(n - 1, a / 2); }
  }

  lemma ReadInRange(x: Operand, m: Mode, s: State)
    ensures 0 <= Read(x, m, s) < Range(m)
  {}

  // Writing depends only on the value modulo the mode.
  lemma WriteModulo(x: Operand, m: Mode, v: int, s: State)
    ensures Write(x, m, v % Range(m), s) == Write(x, m, v, s)
  {
    hide Store;
    hide Merge;
    hide Range;
    ModTwice(v, m);
  }

  // --------------------------------------------------------------------------
  // The codes that output one instruction

  lemma ExecutedSteps(o: Operands, s: State, m: Mode, c1: Code1, c: Code2, i: int)
    ensures Executed(Binary(m, c, m, m, m), o, s)
      == Write(o[0], m, BinaryMeaning(c, m, Read(o[1], m, s), Read(o[2], m, s)), s)
    ensures Executed(BinaryConst(m, c, i), o, s) == Write(o[0], m, BinaryMeaning(c, m, Read(o[1], m, s), i), s)
    ensures Executed(Unary(m, c1, m, m), o, s) == Write(o[0], m, UnaryMeaning(c1, m, Read(o[1], m, s)), s)
  {
    hide BinaryMeaning;
    hide UnaryMeaning;
    hide Write;
    hide Read;
    var v := Values(o, m, s);
    assert Meaning(Op(1, General, m), m, v) == v[1] && Meaning(Op(2, General, m), m, v) == v[2];
    assert Meaning(Int(i), m, v) == i;
  }

  // Instruction i can be encoded and does what pattern p says.
  ghost predicate Faithful(i: Instruction, p: Pat, o: Operands, s: State) {
    Encodable(i) && Step(i, s) == Some(Executed(p, o, s))
  }

  lemma TwoFaithful(c: Code2, m: Mode, o: Operands, s: State)
    requires c in {PLUS, MINUS, AND, IOR, XOR} && o[1] == o[0]
    requires Encodable(Two(c, m, o[2], o[0]))
    ensures Faithful(Two(c, m, o[2], o[0]), Binary(m, c, m, m, m), o, s)
  {
    hide Write;
    hide Read;
    hide Combine;
    ExecutedSteps(o, s, m, NEG, c, 0);
  }

  lemma StepByOneFaithful(m: Mode, o: Operands, s: State)
    requires o[1] == o[0] && Destination(o[0], m)
    ensures Faithful(Increment(m, o[0]), BinaryConst(m, PLUS, 1), o, s)
    ensures Faithful(Decrement(m, o[0]), BinaryConst(m, PLUS, -1), o, s)
    ensures Faithful(Decrement(m, o[0]), BinaryConst(m, MINUS, 1), o, s)
  {
    hide Write;
    hide Read;
    ExecutedSteps(o, s, m, NEG, PLUS, 1);
    ExecutedSteps(o, s, m, NEG, PLUS, -1);
    ExecutedSteps(o, s, m, NEG, MINUS, 1);
    WriteModulo(o[0], m, Read(o[0], m, s) + 1, s);
    WriteModulo(o[0], m, Read(o[0], m, s) - 1, s);
  }

  lemma UnaryFaithful(m: Mode, o: Operands, s: State)
    requires o[1] == o[0] && Destination(o[0], m)
    ensures Faithful(Negate(m, o[0]), Unary(m, NEG, m, m), o, s)
    ensures Faithful(Invert(m, o[0]), Unary(m, NOT, m, m), o, s)
  {
    hide Write;
    hide Read;
    hide Range;
    hide Complement;
    hide Pow2;
    ExecutedSteps(o, s, m, NEG, PLUS, 0);
    ExecutedSteps(o, s, m, NOT, PLUS, 0);
    var a := Read(o[0], m, s);
    WriteModulo(o[0], m, -a, s);
    ReadInRange(o[0], m, s);
    RangeIsPower(m);
    ComplementMeans(Bits(m), a);
    WriteModulo(o[0], m, -1 - a, s);
    WriteModulo(o[0], m, Range(m) - 1 - a, s);
    Lessened(m, a);
  }

  lemma Lessened(m: Mode, a: int)
    requires 0 <= a < Range(m)
    ensures (-1 - a) % Range(m) == (Range(m) - 1 - a) % Range(m)
  {}

  lemma AddSubFaithful(k: int, o: Operands, s: State)
    requires (25 <= k < 28 || 42 <= k < 47 || 49 <= k < 54) && Constrained(k, o)
    ensures Faithful(AddSubTemplate(k, o), I486Description.Pattern(k), o, s)
  {
    hide Faithful;
    var m := if k in {43, 44, 50, 51} then HI else if k in {45, 46, 52, 53} then QI else SI;
    if k in {42, 44, 46, 49, 51, 53} {
      TwoFaithful(if k < 49 then PLUS else MINUS, m, o, s);
    } else {
      StepByOneFaithful(m, o, s);
    }
  }

  lemma LogicFaithful(k: int, o: Operands, s: State)
    requires (68 <= k < 80 || 84 <= k < 87) && Constrained(k, o)
    ensures Faithful(LogicTemplate(k, o), I486Description.Pattern(k), o, s)
  {
    hide Faithful;
    var m := if k in {69, 72, 75, 78, 85} then HI else if k in {70, 73, 76, 79, 86} then QI else SI;
    if k < 77 {
      TwoFaithful(if k < 71 then AND else if k < 74 then IOR else XOR, m, o, s);
    } else {
      UnaryFaithful(m, o, s);
    }
  }

  // Bit by bit: each bit of the destination afterwards is the AND, the inclusive or
  // the exclusive OR of the bits of the operands before.
  lemma LogicOnBits(k: int, o: Operands, s: State)
    requires 68 <= k < 77 && Constrained(k, o)
    ensures (
      var p, t := I486Description.Pattern(k), Run([LogicTemplate(k, o)], s);
      && p.P2? && p.b.P2? && t.Some?
      && forall i: nat | i < Bits(ModeOf(p)) ::
          BitAt(Read(o[0], ModeOf(p), t.value), i)
          <==> OnBits(p.b.c2, BitAt(Read(o[1], ModeOf(p), s), i), BitAt(Read(o[2], ModeOf(p), s), i)))
  {
    hide Read;
    hide Write;
    hide Run;
    hide Executed;
    hide BitAt;
    hide OnBits;
    hide Constrained;
    hide Encodable;
    hide BitByBit;
    hide Step;
    LogicFaithful(k, o, s);
    RunShort(LogicTemplate(k, o), ExtendAx, s);
    LogicText(k);
    var p := I486Description.Pattern(k);
    var m, c := ModeOf(p), p.b.c2;
    hide I486Description.Pattern;
    var a, b := Read(o[1], m, s), Read(o[2], m, s);
    ExecutedSteps(o, s, m, NOT, c, 0);
    DestinationWritten(k, o);
    ReadBack(o[0], m, BinaryMeaning(c, m, a, b), s);
    ReadInRange(o[1], m, s);
    BinaryInRange(c, m, a, b);
    var v := BinaryMeaning(c, m, a, b);
    DivUnique(v, Range(m), 0, v);
    forall i: nat | i < Bits(m) ensures BitAt(v, i) <==> OnBits(c, BitAt(a, i), BitAt(b, i)) {
      LogicBits(c, Bits(m), a, b, i);
    }
  }

  lemma LogicText(k: int)
    requires 68 <= k < 77
    ensures var c := if k < 71 then AND else if k < 74 then IOR else XOR;
      var m := if k % 3 == 2 then SI else if k % 3 == 0 then HI else QI;
      I486Description.Pattern(k) == Binary(m, c, m, m, m)
  {}

  lemma DestinationWritten(k: int, o: Operands)
    requires 68 <= k < 77 && Constrained(k, o)
    ensures !o[0].Imm?
  {}

  // The count register is read as a byte and the operand in its own mode.
  lemma CountMeans(x: Operand, m: Mode, s: State)
    requires CountI(x)
    ensures Read(x, QI, s) % 32 == Read(x, m, s) % 32
  {
    match x
    case R(n) => CountBits(s.reg[n], QI); CountBits(s.reg[n], m);
    case Imm(v) => CountBits(v, QI); CountBits(v, m);
  }

  lemma CountBits(v: int, m: Mode)
    ensures v % Range(m) % 32 == v % 32
  {
    var r, c := Range(m), Range(m) / 32;
    assert r == c * 32;
    assert v == (v / r * c + v % r / 32) * 32 + v % r % 32 by {
      assert v == v / r * r + v % r && v / r * r == v / r * c * 32;
    }
    DivUnique(v, 32, v / r * c + v % r / 32, v % r % 32);
  }

  predicate IsShift(c: Code2) { c in {ASHIFT, LSHIFT, ASHIFTRT, LSHIFTRT, ROTATE, ROTATERT} }

  lemma PlainShiftFaithful(c: Code2, m: Mode, o: Operands, s: State)
    requires IsShift(c) && o[1] == o[0] && Destination(o[0], m) && CountI(o[2])
    ensures Faithful(Shift(c, m, o[2], o[0]), Binary(m, c, m, m, m), o, s)
  {
    hide Write;
    hide Read;
    hide Repeat;
    hide ShiftMeaning;
    ExecutedSteps(o, s, m, NEG, c, 0);
    ReadInRange(o[0], m, s);
    ShiftRepeats(c, m, Read(o[0], m, s), Read(o[2], m, s));
    CountMeans(o[2], m, s);
  }

  lemma DoublingFaithful(o: Operands, s: State)
    requires o[1] == o[0] && o[0].R? && o[2] == Imm(1)
    ensures Faithful(Two(PLUS, SI, o[1], o[1]), Binary(SI, ASHIFT, SI, SI, SI), o, s)
  {
    hide Write;
    hide BinaryMeaning;
    hide Combine;
    ExecutedSteps(o, s, SI, NEG, ASHIFT, 0);
    assert Read(o[2], SI, s) == 1;
    DoublingShifts(Read(o[1], SI, s));
  }

  lemma DoublingShifts(a: int)
    ensures BinaryMeaning(ASHIFT, SI, a, 1) == Combine(PLUS, SI, a, a)
  {
    assert Pow2(1) == 2;
  }

  lemma ShiftFaithful(k: int, o: Operands, s: State)
    requires 87 <= k < 105 && Constrained(k, o)
    ensures Faithful(ShiftTemplate(k, o), I486Description.Pattern(k), o, s)
  {
    hide Faithful;
    var c := ShiftCode(k);
    PlainShiftFaithful(c, ShiftMode(k), o, s);
    assert I486Description.Pattern(k) == Binary(ShiftMode(k), c, ShiftMode(k), ShiftMode(k), ShiftMode(k));
    if k == 87 && o[1].R? && o[2] == Imm(1) { DoublingFaithful(o, s); }
  }

  lemma MultiplyFaithful(k: int, o: Operands, s: State)
    requires (k == 56 || k == 57) && Constrained(k, o)
    ensures Encodable(MultiplyTemplate(k, o))
    ensures Step(MultiplyTemplate(k, o), s) == Some(Executed(I486Description.Pattern(k), o, s))
  {
    hide Write;
    hide Read;
    var m := if k == 56 then HI else SI;
    var a, b := Read(o[1], m, s), Read(o[2], m, s);
    SignedProduct(m, a, b);
    WriteModulo(o[0], m, Signed(m, a) * Signed(m, b), s);
    WriteModulo(o[0], m, a * b, s);
    ExecutedProduct(k, o, s);
  }

  lemma ExecutedProduct(k: int, o: Operands, s: State)
    requires k == 56 || k == 57
    ensures (
      var m := if k == 56 then HI else SI;
      Executed(I486Description.Pattern(k), o, s)
        == Write(o[0], m, Read(o[1], m, s) * Read(o[2], m, s) % Range(m), s))
  {
    hide Write;
    hide Read;
    var m := if k == 56 then HI else SI;
    var v := Values(o, m, s);
    assert Meaning(Op(1, General, m), m, v) == v[1] && Meaning(Op(2, General, m), m, v) == v[2];
  }

  // Every integer code that outputs one instruction: under its constraints the
  // instruction can be encoded, and running it changes the machine exactly as the
  // pattern says, operand 0 receiving the value and nothing else changing.
  lemma TemplateFaithful(k: int, o: Operands, s: State)
    requires OneInstruction(k) && Constrained(k, o)
    ensures Encodable(Template(k, o))
    ensures Run([Template(k, o)], s) == Some(Executed(I486Description.Pattern(k), o, s))
  {
    hide Step;
    hide Executed;
    hide Encodable;
    hide Constrained;
    hide I486Description.Pattern;
    RunShort(Template(k, o), ExtendAx, s);
    if k < 54 { AddSubFaithful(k, o, s); }
    else if k < 58 { MultiplyFaithful(k, o, s); }
    else if k < 87 { LogicFaithful(k, o, s); }
    else { ShiftFaithful(k, o, s); }
  }

  // --------------------------------------------------------------------------
  // Codes 58 and 59: the product goes to dx:ax and its low half is the pattern's,
  // whose clobber allows for the rest.

  // "=a" "%0" "rm"
  predicate AxConstrained(o: Operands) { o[0] == R(AX) && o[1] == o[0] && RM(o[2]) }

  lemma AxProductFaithful(k: int, o: Operands, s: State)
    requires (k == 58 || k == 59) && AxConstrained(o)
    ensures (
      var m := if k == 58 then HI else SI;
      var high := Read(o[1], m, s) * Read(o[2], m, s) / Range(m);
      var p := I486Description.Pattern(k);
      && p == WithClobber(p.a, Lit(Reg(m, DX))) && Encodable(MultiplyAx(m, o[2]))
      && Run([MultiplyAx(m, o[2])], s) == Some(Write(R(DX), m, high, Executed(p.a, o, s))))
  {
    hide Write;
    hide Read;
    var m := if k == 58 then HI else SI;
    RunShort(MultiplyAx(m, o[2]), ExtendAx, s);
    var v := Values(o, m, s);
    assert Meaning(Op(1, General, m), m, v) == v[1] && Meaning(Op(2, General, m), m, v) == v[2];
    WriteModulo(o[0], m, Read(o[1], m, s) * Read(o[2], m, s), s);
  }

  // --------------------------------------------------------------------------
  // Codes 66 and 67: division, after dx has been set from ax or to zero.

  function DivideTemplate(k: int, o: Operands): seq<Instruction> {
    if k == 66 then [ExtendAx, DivideSigned(o[2])] else [Clear(o[3]), DivideUnsigned(o[2])]
  }

  predicate Mentions(n: RegNo, x: Operand) {
    match x
    case R(r) => r == n
    case Imm(_) => false
    case M(base, index, _, _) => base == Some(n) || index == Some(n)
  }

  // "=a" "0" "rm" "=&d": operand 3 is written before operand 2 is read, so no
  // input may mention it.
  predicate DivideConstrained(o: Operands) { AxConstrained(o) && o[3] == R(DX) && !Mentions(DX, o[2]) }

  // By number: counts in register 2, quotients in 0 and remainders in 1.
  lemma FixedRegisters(n: RegNo, o: Operands)
    ensures CountI(R(n)) <==> n == 2
    ensures AxConstrained(o) ==> o[0] == o[1] == R(0)
    ensures DivideConstrained(o) ==> o[3] == R(1) && o[2] != R(1)
  {}

  // (parallel [(set op0 ..) (set op3 ..)]): both sources are evaluated first.
  function ExecutedBoth(p: Pat, o: Operands, s: State): State
    requires p.PPar?
  {
    Write(o[3], SI, Meaning(SourceOf(p.b), SI, Values(o, SI, s)), Executed(p.a, o, s))
  }

  lemma ExecutedDivision(k: int, o: Operands, s: State)
    requires k == 66 || k == 67
    ensures (
      var p := I486Description.Pattern(k);
      var a, b := Read(o[1], SI, s), Read(o[2], SI, s);
      && p.PPar?
      && ExecutedBoth(p, o, s) == Write(o[3], SI, BinaryMeaning(if k == 66 then MOD else UMOD, SI, a, b),
           Write(o[0], SI, BinaryMeaning(if k == 66 then DIV else UDIV, SI, a, b), s)))
  {
    hide Write;
    hide Read;
    hide BinaryMeaning;
    var v := Values(o, SI, s);
    assert Meaning(Op(1, General, SI), SI, v) == v[1] && Meaning(Op(2, General, SI), SI, v) == v[2];
    assert Meaning(Dup(1), SI, v) == v[1] && Meaning(Dup(2), SI, v) == v[2];
  }

  lemma SmallQuotient(a: int, b: int)
    requires a >= 0 && b != 0
    ensures a / b * b + a % b == a && -a <= a / b <= a
  {
    var q, c := a / b, if b > 0 then b else -b;
    var p := if b > 0 then q else -q;
    assert p * c == q * b <= a;
    if p < 0 { Multiple(-p, c); }
    if p > a { Product(p, c); }
  }

  lemma Product(p: int, c: int)
    requires p >= 0 && c >= 1
    ensures p * c >= p
  {}

  // Truncating division is the one whose remainder is smaller than the divisor and
  // does not have the sign opposite to the dividend's.
  lemma QuotientTruncates(a: int, b: int)
    requires b != 0
    ensures (
      var q, r := Quotient(a, b), Remainder(a, b);
      && a == q * b + r
      && (if b > 0 then -b < r < b else b < r < -b)
      && (r > 0 ==> a > 0) && (r < 0 ==> a < 0)
      && (a >= 0 ==> -a <= q <= a) && (a < 0 ==> a <= q <= -a))
  {
    if a >= 0 {
      SmallQuotient(a, b);
    } else {
      SmallQuotient(-a, b);
      assert -(-a / b) * b == -(-a / b * b);
    }
  }

  lemma OperandKept(x: Operand, v: int, s: State)
    requires !Mentions(DX, x)
    ensures Read(x, SI, Write(R(DX), SI, v, s)) == Read(x, SI, s)
  {}

  // A quotient of words fits a word unless it is 2**31.
  lemma QuotientFits(a: int, b: int)
    requires -WORD / 2 <= a < WORD / 2 && b != 0
    ensures -WORD / 2 <= Quotient(a, b) < WORD / 2 <==> !(a == -WORD / 2 && b == -1)
  {
    QuotientTruncates(a, b);
    if a == -WORD / 2 && Quotient(a, b) == WORD / 2 {
      var r := Remainder(a, b);
      assert WORD / 2 * b == -WORD / 2 - r;
    }
  }

  // Code 66 traps for a zero divisor and for the quotient 2**31, and otherwise
  // leaves the truncated quotient and the remainder.
  lemma SignedDivisionFaithful(o: Operands, s: State)
    requires DivideConstrained(o)
    ensures (
      var a, b := Signed(SI, Read(o[1], SI, s)), Signed(SI, Read(o[2], SI, s));
      var p := I486Description.Pattern(66);
      && p.PPar?
      && Run(DivideTemplate(66, o), s)
        == if b == 0 || (a == -WORD / 2 && b == -1) then None else Some(ExecutedBoth(p, o, s)))
  {
    hide Read;
    hide Write;
    hide Run;
    RunShort(ExtendAx, DivideSigned(o[2]), s);
    ReadInRange(o[1], SI, s);
    ReadInRange(o[2], SI, s);
    AfterExtend(o, s);
    ExecutedDivision(66, o, s);
    var a, b := Signed(SI, Read(o[1], SI, s)), Signed(SI, Read(o[2], SI, s));
    if b != 0 {
      QuotientFits(a, b);
      DividedWrites(Quotient(a, b), Remainder(a, b), s, if s.reg[AX] < WORD / 2 then 0 else WORD - 1);
    }
  }

  // The sign word in dx and ax are the signed operand, and operand 2 is as before.
  lemma AfterExtend(o: Operands, s: State)
    requires DivideConstrained(o)
    ensures (
      var t := Write(R(DX), SI, if s.reg[AX] < WORD / 2 then 0 else WORD - 1, s);
      && Read(o[2], SI, t) == Read(o[2], SI, s) && SignedPair(t) == Signed(SI, Read(o[1], SI, s)))
  {
    hide Read;
    OperandKept(o[2], if s.reg[AX] < WORD / 2 then 0 else WORD - 1, s);
    SignWord(s.reg[AX]);
    assert Read(R(AX), SI, s) == s.reg[AX] by { ReadWord(AX, s); }
  }

  lemma ReadWord(n: RegNo, s: State)
    ensures Read(R(n), SI, s) == s.reg[n]
  {}

  lemma SignWord(a: Word)
    ensures Signed(SI, if a < WORD / 2 then 0 else WORD - 1) * WORD + a == Signed(SI, a)
  {}

  lemma DividedWrites(q: int, r: int, s: State, d: int)
    ensures Write(R(DX), SI, r, Write(R(AX), SI, q, Write(R(DX), SI, d, s)))
      == Write(R(DX), SI, r % Range(SI), Write(R(AX), SI, q % Range(SI), s))
  {
    WriteModulo(R(AX), SI, q, s);
    var x, y := Write(R(DX), SI, d, s), Write(R(AX), SI, q, s);
    assert x.reg[AX := q % WORD][DX := r % WORD] == s.reg[AX := q % WORD][DX := r % WORD];
  }

  // Code 67 never overflows the divide: it traps for a zero divisor only.
  lemma UnsignedDivisionFaithful(o: Operands, s: State)
    requires DivideConstrained(o)
    ensures (
      var p := I486Description.Pattern(67);
      && p.PPar?
      && Run(DivideTemplate(67, o), s) == if Read(o[2], SI, s) == 0 then None else Some(ExecutedBoth(p, o, s)))
  {
    hide Read;
    hide Write;
    hide Run;
    hide ExecutedBoth;
    hide I486Description.Pattern;
    RunShort(Clear(o[3]), DivideUnsigned(o[2]), s);
    ReadInRange(o[1], SI, s);
    ReadInRange(o[2], SI, s);
    AfterClear(o, s);
    ExecutedDivision(67, o, s);
    var a, b := Read(o[1], SI, s), Read(o[2], SI, s);
    if b != 0 {
      SmallQuotient(a, b);
      QuotientBelow(a, b, a + 1) by { Multiple(b, a + 1); }
      DividedWrites(a / b, a % b, s, 0);
    }
  }

  lemma AfterClear(o: Operands, s: State)
    requires DivideConstrained(o)
    ensures (
      var t := Write(R(DX), SI, 0, s);
      && Read(o[2], SI, t) == Read(o[2], SI, s) && UnsignedPair(t) == Read(o[1], SI, s))
  {
    OperandKept(o[2], 0, s);
  }

  // The earlyclobber is needed: with the divisor in dx, every nonnegative dividend
  // traps, whatever the divisor was.
  lemma DivisorInDxTraps(o: Operands, s: State)
    requires o[2] == R(DX) && o[3] == R(DX) && s.reg[AX] < WORD / 2
    ensures Run(DivideTemplate(66, o), s) == None && Run(DivideTemplate(67, o), s) == None
  {
    hide Run;
    hide Write;
    hide Read;
    RunShort(ExtendAx, DivideSigned(o[2]), s);
    RunShort(Clear(o[3]), DivideUnsigned(o[2]), s);
    ReadBack(R(DX), SI, 0, s);
  }

  // --------------------------------------------------------------------------
  // Code 28: load address

  // The registers and symbols of an rtx address, in machine state s.
  function Meant(s: State, other: (Rtx, seq<int>) -> int): RtlValue.Machine {
    RtlValue.Machine(n => if 0 <= n < 8 then s.reg[n] else 0, (_, _) => 0, other)
  }

  // REG_OK_STRICT after register allocation: no pseudo register is left.
  const FINAL := I486Address.Registers(true, _ => -1)

  predicate HardRegisters(p: I486Address.Parts) {
    (p.base.Some? ==> 0 <= p.base.value) && (p.index.Some? ==> 0 <= p.index.value)
  }

  function ModeOperand(p: I486Address.Parts, m: RtlValue.Machine): Operand
    requires I486Address.Encodable(p, FINAL) && HardRegisters(p)
  {
    M(if p.base.Some? then Some(p.base.value) else None,
      if p.index.Some? then Some(p.index.value) else None, p.scale, I486Address.DispValue(p, m))
  }

  // output_28
  function LoadAddressTemplate(x: Rtx, n: RegNo, m: RtlValue.Machine): Instruction
    requires I486Address.Encodable(I486Address.AddressParts(x, FINAL), FINAL)
    requires HardRegisters(I486Address.AddressParts(x, FINAL))
  {
    if Is2(x, PLUS) && Is0(x.right, CONST_INT) && RtxEqual(Reg(SI, n), x.left) then
      Two(PLUS, SI, Imm(x.right.val), R(n))
    else LoadAddress(ModeOperand(I486Address.AddressParts(x, FINAL), m), R(n))
  }

  // Addition or lea, the register ends up with the value of the address, and
  // nothing else changes.
  lemma LoadAddressFaithful(x: Rtx, n: RegNo, s: State, other: (Rtx, seq<int>) -> int)
    requires I486Address.Legitimate(x, FINAL) && HardRegisters(I486Address.AddressParts(x, FINAL))
    ensures (
      var m := Meant(s, other);
      && I486Address.Encodable(I486Address.AddressParts(x, FINAL), FINAL)
      && Encodable(LoadAddressTemplate(x, n, m))
      && Run([LoadAddressTemplate(x, n, m)], s) == Some(Write(R(n), SI, RtlValue.Value(x, m), s)))
  {
    hide I486Address.AddressParts;
    hide I486Address.Legitimate;
    hide Write;
    hide Read;
    var m := Meant(s, other);
    var p := I486Address.AddressParts(x, FINAL);
    I486Address.LegitimateDecomposes(x, FINAL, m);
    RunShort(LoadAddressTemplate(x, n, m), ExtendAx, s);
    if LoadAddressTemplate(x, n, m).Two? {
      AddressSum(x, n, s, m);
    } else {
      ModeAddress(p, s, m);
    }
  }

  lemma AddressSum(x: Rtx, n: RegNo, s: State, m: RtlValue.Machine)
    requires Is2(x, PLUS) && Is0(x.right, CONST_INT) && RtxEqual(Reg(SI, n), x.left) && m.reg(n) == s.reg[n]
    ensures RtlValue.Value(x, m) == (Read(R(n), SI, s) + Read(Imm(x.right.val), SI, s)) % Range(SI)
  {
    assert RtlValue.Value(x.left, m) == s.reg[n] && RtlValue.Value(x.right, m) == x.right.val % WORD;
  }

  lemma ModeAddress(p: I486Address.Parts, s: State, m: RtlValue.Machine)
    requires I486Address.Encodable(p, FINAL) && HardRegisters(p)
    requires forall n: RegNo :: m.reg(n) == s.reg[n]
    ensures Address(ModeOperand(p, m), s) == I486Address.PartsValue(p, m)
  {
    hide RtlValue.Wrap;
    hide RtlValue.Value;
    var b := I486Address.BaseValue(p, m) + I486Address.DispValue(p, m);
    var i := if p.index.Some? then s.reg[p.index.value] * p.scale else 0;
    RegisterWord(p.base, s, m);
    RegisterWord(p.index, s, m);
    RtlValue.WrapSum(i, b);
    assert Wrap(i + b) == RtlValue.Wrap(i + b) by { SameWrap(i + b); }
  }

  function PartsOf(x: Operand): I486Address.Parts
    requires x.M?
  {
    I486Address.Parts(if x.base.Some? then Some(x.base.value) else None,
      if x.index.Some? then Some(x.index.value) else None, x.scale, Some(ConstInt(x.disp)))
  }

  // Every addressing mode the processor can encode, any two registers but no stack
  // pointer as index, is reached by a legitimate address of the same value.
  lemma EveryModeHasAddress(x: Operand, s: State, other: (Rtx, seq<int>) -> int)
    requires Encodable(LoadAddress(x, R(AX)))
    ensures (
      var m, a := Meant(s, other), I486Address.AddressRtx(PartsOf(x));
      I486Address.Legitimate(a, FINAL) && RtlValue.Value(a, m) == Address(x, s))
  {
    hide I486Address.AddressRtx;
    hide I486Address.Legitimate;
    hide RtlValue.Wrap;
    var m, p := Meant(s, other), PartsOf(x);
    I486Address.ModesAreLegitimate(p, FINAL, m);
    RegisterWord(p.base, s, m);
    RegisterWord(p.index, s, m);
    var b := if x.base.Some? then s.reg[x.base.value] else 0;
    var i := if x.index.Some? then s.reg[x.index.value] * x.scale else 0;
    assert RtlValue.Value(ConstInt(x.disp), m) == RtlValue.Wrap(x.disp);
    RtlValue.WrapSum(i, b + RtlValue.Wrap(x.disp));
    RtlValue.WrapSum(x.disp, i + b);
    assert Wrap(b + i + x.disp) == RtlValue.Wrap(b + i + x.disp) by { SameWrap(b + i + x.disp); }
  }

  lemma RegisterWord(n: Option<int>, s: State, m: RtlValue.Machine)
    requires n.Some? ==> 0 <= n.value < 8 && m.reg(n.value) == s.reg[n.value]
    ensures n.Some? ==> m.reg(n.value) % RtlValue.WORD == s.reg[n.value]
  {}

  lemma SameWrap(v: int)
    ensures Wrap(v) == RtlValue.Wrap(v)
  {}
}
